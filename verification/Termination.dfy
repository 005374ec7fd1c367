/** How long the pipeline can run on its own under the restricted fault model, and where it comes to rest. */
module Termination {
  import opened Wrappers
  import opened Schema
  import opened Pipeline
  import opened AnyFault
  import opened ProviderFault
  import opened ProviderFaultTheorems

  /** Steps a running task still has to take at most. Webhook deliveries are not counted. */
  function Rank(t: Task): nat {
    match t
    case Upload(pc) => UploadRank(pc)
    case Ocr(_, _, pc) => OcrRank(pc)
    case Ext(_, _, pc, _) => ExtRank(pc)
    case Notify(pc) => if pc == NotifyRead then 2 else if pc == NotifyAdd then 1 else 0
    case Rerun(_, enqueued) => if enqueued then 0 else 1
    case Hook(_, _, _) => 0
  }

  function UploadRank(pc: UploadPc): nat {
    match pc
    case UpStore => 5
    case UpSaveKey(_) => 4
    case UpLog => 3
    case UpEnqueue => 2
    case UpFail => 1
    case _ => 0
  }

  function OcrRank(pc: OcrPc): nat {
    match pc
    case OcrRead => 7
    case OcrMark(_, _) => 6
    case OcrRecognize(_, _) => 5
    case OcrStore(_, _, _) => 4
    case OcrLog(_, _, _) => 3
    case OcrHandOver(_, _) => 2
    case OcrFail => 1
    case _ => 0
  }

  function ExtRank(pc: ExtPc): nat {
    match pc
    case ExtRead => 12
    case ExtTenant => 11
    case ExtMark(_) => 10
    case ExtClassify(_) => 9
    case ExtType(_, _) => 8
    case ExtCall(_) => 7
    case ExtInsert(_, _) => 6
    case ExtPublish(_, _, _) => 5
    case ExtLog(_, _, _) => 4
    case ExtLogDecision(_, _, _) => 3
    case ExtNotify => 2
    case ExtEmpty(_) => 2
    case ExtUnknown => 2
    case ExtFail => 2
    case ExtLogEmpty(_) => 1
    case ExtLogUnknown => 1
    case ExtLogFail => 1
    case _ => 0
  }

  const OCR_EXECUTION: nat := 8
  const EXT_EXECUTION: nat := 13

  function Left(s: Shared, key: JobKey): nat {
    if key in s.jobs && s.jobs[key].executions <= JOB_ATTEMPTS then JOB_ATTEMPTS - s.jobs[key].executions else 0
  }

  /** What the executions still to come may cost. */
  function Ahead(s: Shared, key: JobKey): nat {
    match key
    case OcrKey(_) => JOB_ATTEMPTS * EXT_EXECUTION + Left(s, key) * OCR_EXECUTION
    case ExtractKey(_) => Left(s, key) * EXT_EXECUTION
  }

  function AheadOfTask(s: Shared, t: Task): nat {
    match t
    case Upload(_) => JOB_ATTEMPTS * EXT_EXECUTION + JOB_ATTEMPTS * OCR_EXECUTION
    case Rerun(_, _) => JOB_ATTEMPTS * EXT_EXECUTION + JOB_ATTEMPTS * OCR_EXECUTION
    case Ocr(run, _, _) => Ahead(s, OcrKey(run))
    case Ext(run, _, _, _) => Ahead(s, ExtractKey(run))
    case _ => 0
  }

  function AheadOfHolder(s: Shared, tasks: seq<Task>, h: Holder): nat {
    match h
    case Nobody => 0
    case HeldByJob(key) => Ahead(s, key)
    case HeldByTask(i) => if i < |tasks| then AheadOfTask(s, tasks[i]) else 0
  }

  function Measure(y: System, h: Holder): nat {
    AheadOfHolder(y.shared, y.tasks, h) + Total(y.tasks, Rank)
  }

  /** A step of the pipeline itself: an unfinished task other than a webhook delivery moves, or a job starts. */
  predicate Effective(y: System, a: Action) {
    match a
    case RunTask(i, _) => i < |y.tasks| && Rank(y.tasks[i]) > 0
    case StartOcr(run) => OcrKey(run) in y.shared.jobs
    case StartExtraction(run) => ExtractKey(run) in y.shared.jobs
    case _ => false
  }

  function EffectiveSteps(y: System, actions: seq<Action>): nat {
    if actions == [] then 0
    else
      var before := actions[..|actions| - 1];
      EffectiveSteps(y, before) + if Effective(Run(y, before), actions[|actions| - 1]) then 1 else 0
  }

  lemma QuietRank(s: Shared, t: Task, env: Env)
    requires !Live(t)
    requires t.Ext? ==> env.fault == NoFault
    ensures var t' := MoveOf(s, t, env).task; if Rank(t) > 0 then Rank(t') < Rank(t) else Rank(t') == 0
  {
    if t.Ext? {
      QuietExtRank(s, t, env);
    }
  }

  lemma QuietExtRank(s: Shared, t: Task, env: Env)
    requires t.Ext? && !Live(t) && env.fault == NoFault
    ensures var t' := ExtMove(s, t, env).task;
            t'.Ext? && if ExtRank(t.ext) > 0 then ExtRank(t'.ext) < ExtRank(t.ext) else t' == t
  {
  }

  lemma LiveExtRank(s: Shared, t: Task, env: Env)
    requires t.Ext? && Live(t) && env.fault == NoFault
    ensures var t' := ExtMove(s, t, env).task; t'.Ext? && t'.run == t.run && ExtRank(t'.ext) < ExtRank(t.ext)
  {
  }

  lemma LiveRank(s: Shared, t: Task, env: Env)
    requires Live(t) && (env.fault == NoFault || AtProvider(t))
    ensures Rank(MoveOf(s, t, env).task) < Rank(t)
  {
    if t.Ext? {
      LiveExtRank(s, t, env);
    }
  }

  /** A live task's step never adds to what lies ahead. */
  lemma LiveAhead(s: Shared, t: Task, env: Env, i: nat)
    requires Live(t) && TaskPhase(s, t) && TaskOk(s, t) && OnActiveJob(s, t) && s.writes != []
    requires env.fault == NoFault || AtProvider(t)
    ensures var m := MoveOf(s, t, env); var s' := Effect(s, t, m);
            var h' := HolderAfterTask(s', i, t, m);
            (match h'
             case Nobody => 0
             case HeldByJob(key) => Ahead(s', key)
             case HeldByTask(_) => AheadOfTask(s', m.task)) <= AheadOfTask(s, t)
  {
    match t {
      case Ocr(_, _, _) => OcrAhead(s, t, env, i);
      case Ext(_, _, _, _) => ExtAhead(s, t, env, i);
      case _ =>
    }
  }

  lemma OcrAhead(s: Shared, t: Task, env: Env, i: nat)
    requires t.Ocr? && Live(t) && TaskPhase(s, t) && TaskOk(s, t)
    ensures var m := OcrMove(s, t, env); var s' := Effect(s, t, m);
      && Left(s', OcrKey(t.run)) == Left(s, OcrKey(t.run))
      && m.task.Ocr? && m.task.run == t.run
      && (m.ending == Returns ==> Left(s', ExtractKey(t.run)) <= JOB_ATTEMPTS)
  {
  }

  lemma ExtAhead(s: Shared, t: Task, env: Env, i: nat)
    requires t.Ext?
    ensures var m := ExtMove(s, t, env); var s' := Effect(s, t, m);
      && Left(s', ExtractKey(t.run)) == Left(s, ExtractKey(t.run))
      && m.task.Ext? && m.task.run == t.run
  {
    ExtKeepsExecutions(s, t, env);
  }

  lemma ExtKeepsExecutions(s: Shared, t: Task, env: Env)
    requires t.Ext?
    ensures var m := ExtMove(s, t, env);
      && m.task.Ext? && m.task.run == t.run && !m.op.AddJob?
      && (m.op.CountCalls? ==> m.op.job == ExtractKey(t.run))
  {
    if BeforePublish(t.ext) { ExtKeepsExecutionsEarly(s, t, env); } else { ExtKeepsExecutionsLate(s, t, env); }
  }

  lemma ExtKeepsExecutionsEarly(s: Shared, t: Task, env: Env)
    requires t.Ext? && BeforePublish(t.ext)
    ensures var m := ExtMove(s, t, env);
      && m.task.Ext? && m.task.run == t.run && !m.op.AddJob?
      && (m.op.CountCalls? ==> m.op.job == ExtractKey(t.run))
  {
  }

  lemma ExtKeepsExecutionsLate(s: Shared, t: Task, env: Env)
    requires t.Ext? && !BeforePublish(t.ext)
    ensures var m := ExtMove(s, t, env); m.task.Ext? && m.task.run == t.run && !m.op.AddJob? && !m.op.CountCalls?
  {
  }

  lemma QuietMeasure(y: System, h: Holder, i: nat, env: Env)
    requires Good(y, h) && i < |y.tasks| && !Live(y.tasks[i]) && Permitted(y, RunTask(i, env))
    ensures var y' := Next(y, RunTask(i, env));
            Measure(y', h) + (if Effective(y, RunTask(i, env)) then 1 else 0) <= Measure(y, h)
  {
    var t := y.tasks[i];
    var y' := Next(y, RunTask(i, env));
    QuietMove(y.shared, t, env);
    QuietRank(y.shared, t, env);
    TotalUpdate(y.tasks, i, y'.tasks[i], Rank);
    assert h.HeldByTask? ==> h.i != i;
    SameAhead(y.shared, y'.shared, y.tasks, y'.tasks, h);
  }

  lemma SameAhead(s: Shared, s': Shared, tasks: seq<Task>, tasks': seq<Task>, h: Holder)
    requires s'.jobs.Keys == s.jobs.Keys && forall k <- s.jobs :: s'.jobs[k].executions == s.jobs[k].executions
    requires h.HeldByTask? ==> h.i < |tasks| <= |tasks'| && tasks'[h.i] == tasks[h.i]
    ensures AheadOfHolder(s', tasks', h) == AheadOfHolder(s, tasks, h)
  {
    assert forall k :: Left(s', k) == Left(s, k);
  }

  lemma LiveHolderAhead(y: System, h: Holder, i: nat, env: Env)
    requires Held(y, h) && i < |y.tasks| && h == HeldByTask(i) && Live(y.tasks[i]) && TaskOk(y.shared, y.tasks[i])
    requires y.shared.writes != [] && (env.fault == NoFault || AtProvider(y.tasks[i]))
    ensures var a := RunTask(i, env); var y' := Next(y, a);
            AheadOfHolder(y'.shared, y'.tasks, NextHolder(y, h, a)) <= AheadOfHolder(y.shared, y.tasks, h)
  {
    LiveAhead(y.shared, y.tasks[i], env, i);
  }

  lemma LiveMeasure(y: System, h: Holder, i: nat, env: Env)
    requires Good(y, h) && i < |y.tasks| && Live(y.tasks[i]) && Permitted(y, RunTask(i, env))
    ensures var a := RunTask(i, env); Measure(Next(y, a), NextHolder(y, h, a)) + 1 <= Measure(y, h)
  {
    var t := y.tasks[i];
    var y' := Next(y, RunTask(i, env));
    assert h == HeldByTask(i) && TaskOk(y.shared, t);
    LiveRank(y.shared, t, env);
    LiveHolderAhead(y, h, i, env);
    TotalUpdate(y.tasks, i, y'.tasks[i], Rank);
  }

  lemma StartMeasure(y: System, h: Holder, a: Action)
    requires Good(y, h) && Permitted(y, a) && (a.StartOcr? || a.StartExtraction?) && Effective(y, a)
    ensures Measure(Next(y, a), NextHolder(y, h, a)) + 1 <= Measure(y, h)
  {
    var key := if a.StartOcr? then OcrKey(a.run) else ExtractKey(a.run);
    assert h == HeldByJob(key);
    var y' := Next(y, a);
    TotalSnoc(y.tasks, y'.tasks[|y.tasks|], Rank);
    assert Left(y.shared, key) == Left(y'.shared, key) + 1;
  }

  lemma WebhookMeasure(y: System, h: Holder, j: nat)
    requires Held(y, h)
    ensures Measure(Next(y, StartWebhook(j)), h) == Measure(y, h)
  {
    var y' := Next(y, StartWebhook(j));
    if j < |y.shared.webhooks| {
      TotalSnoc(y.tasks, y'.tasks[|y.tasks|], Rank);
    }
    SameAhead(y.shared, y'.shared, y.tasks, y'.tasks, h);
  }

  /** Every pipeline step a reviewer does not take uses up some of the measure. */
  lemma StepMeasure(y: System, h: Holder, a: Action)
    requires Good(y, h) && Permitted(y, a) && !IsReviewer(a)
    ensures Measure(Next(y, a), NextHolder(y, h, a)) + (if Effective(y, a) then 1 else 0) <= Measure(y, h)
  {
    match a {
      case RunTask(i, env) =>
        if i < |y.tasks| {
          if Live(y.tasks[i]) { LiveMeasure(y, h, i, env); } else { QuietMeasure(y, h, i, env); }
        }
      case StartWebhook(j) => WebhookMeasure(y, h, j);
      case _ =>
        if Effective(y, a) { StartMeasure(y, h, a); }
    }
  }

  /** Termination: without reviewers, a permitted run takes at most Measure pipeline steps. */
  lemma {:induction false} PipelineTerminates(y: System, h: Holder, actions: seq<Action>)
    requires Good(y, h) && PermittedRun(y, actions) && forall a <- actions :: !IsReviewer(a)
    ensures EffectiveSteps(y, actions) + Measure(Run(y, actions), HolderAfter(y, h, actions)) <= Measure(y, h)
  {
    if actions != [] {
      var before := actions[..|actions| - 1];
      assert forall a <- before :: a in actions;
      PipelineTerminates(y, h, before);
      AlwaysGood(y, h, before);
      StepMeasure(Run(y, before), HolderAfter(y, h, before), actions[|actions| - 1]);
    }
  }

  /** From the upload request on, sixty-eight pipeline steps are always enough. */
  lemma UploadSettlesWithin68(id: string, tenantId: string, uploadedBy: string, fileName: string, actions: seq<Action>)
    requires PermittedRun(Start(id, tenantId, uploadedBy, fileName), actions) && forall a <- actions :: !IsReviewer(a)
    ensures EffectiveSteps(Start(id, tenantId, uploadedBy, fileName), actions) <= 68
  {
    var y := Start(id, tenantId, uploadedBy, fileName);
    StartIsGood(id, tenantId, uploadedBy, fileName);
    PipelineTerminates(y, HeldByTask(0), actions);
    assert y.tasks[..0] == [];
  }

  /** Nothing of the pipeline is left to do: no upload in flight, no execution running, no job waiting. */
  ghost predicate AtRest(y: System) {
    && (forall t <- y.tasks :: Rank(t) == 0)
    && (forall k <- y.shared.jobs :: y.shared.jobs[k].state != Waiting)
  }

  /** The step leaves the document alone: no reviewer acts, and the environment answers as given. */
  ghost predicate Leaves(a: Action, env: Env) {
    a.StartOcr? || a.StartExtraction? || (a.RunTask? && a.env == env)
  }

  /** The pipeline never gets stuck: it is at rest or a permitted pipeline step exists. */
  lemma RestOrProgress(y: System, env: Env)
    requires env.fault == NoFault && !AtRest(y)
    ensures exists a :: Permitted(y, a) && Effective(y, a) && Leaves(a, env)
  {
    if t :| t in y.tasks && Rank(t) != 0 {
      var i :| 0 <= i < |y.tasks| && y.tasks[i] == t;
      assert Permitted(y, RunTask(i, env)) && Effective(y, RunTask(i, env));
    } else {
      var k :| k in y.shared.jobs && y.shared.jobs[k].state == Waiting;
      var a := if k.OcrKey? then StartOcr(k.run) else StartExtraction(k.run);
      assert Permitted(y, a) && Effective(y, a);
    }
  }

  lemma Closer(y: System, h: Holder, env: Env) returns (a: Action)
    requires Good(y, h) && env.fault == NoFault && !AtRest(y)
    ensures Permitted(y, a) && Leaves(a, env)
    ensures Good(Next(y, a), NextHolder(y, h, a)) && Measure(Next(y, a), NextHolder(y, h, a)) < Measure(y, h)
  {
    RestOrProgress(y, env);
    a :| Permitted(y, a) && Effective(y, a) && Leaves(a, env);
    StepMeasure(y, h, a);
    StepGood(y, h, a);
  }

  lemma PermittedSnoc(y: System, h: Holder, actions: seq<Action>, a: Action)
    requires PermittedRun(y, actions) && Permitted(Run(y, actions), a)
    ensures PermittedRun(y, actions + [a])
    ensures Run(y, actions + [a]) == Next(Run(y, actions), a)
    ensures HolderAfter(y, h, actions + [a]) == NextHolder(Run(y, actions), HolderAfter(y, h, actions), a)
  {
    FollowsSnoc(Permitted, y, actions, a);
    assert (actions + [a])[..|actions + [a]| - 1] == actions;
  }

  /** No upload in flight, no execution that may still write the status, no job waiting. */
  ghost predicate Idle(y: System) {
    && (forall t <- y.tasks :: !Live(t))
    && (forall k <- y.shared.jobs :: y.shared.jobs[k].state != Waiting)
  }

  lemma RestIsIdle(y: System)
    requires AtRest(y)
    ensures Idle(y)
  {
    forall t <- y.tasks ensures !Live(t) {
      assert Rank(t) == 0;
    }
  }

  /** Left alone, the pipeline reaches rest from every state it can be in. */
  lemma RestIsReached(y: System, h: Holder, env: Env) returns (actions: seq<Action>)
    requires Good(y, h) && env.fault == NoFault
    ensures PermittedRun(y, actions) && AtRest(Run(y, actions)) && Idle(Run(y, actions))
    ensures forall a <- actions :: Leaves(a, env)
  {
    actions := [];
    while !AtRest(Run(y, actions))
      invariant PermittedRun(y, actions) && forall a <- actions :: Leaves(a, env)
      invariant Good(Run(y, actions), HolderAfter(y, h, actions))
      decreases Measure(Run(y, actions), HolderAfter(y, h, actions))
    {
      var a := Closer(Run(y, actions), HolderAfter(y, h, actions), env);
      PermittedSnoc(y, h, actions, a);
      actions := actions + [a];
    }
    RestIsIdle(Run(y, actions));
  }

  /** Settlement: an idle document is pending review, approved, rejected or failed. */
  lemma RestIsSettled(y: System)
    requires PermittedlyReachable(y) && Idle(y)
    ensures y.shared.tables.row.status in {PendingReview, Approved, Rejected, Failed}
  {
    var h := ReachableIsGood(y);
    NobodyIsIdle(y, h);
  }

  lemma NobodyIsIdle(y: System, h: Holder)
    requires Held(y, h) && Idle(y)
    ensures h == Nobody && Settled(y.shared)
  {
  }
}
