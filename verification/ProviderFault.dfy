/** The restricted fault model: only storage, OCR and the language model fail, the queue runs a job again
    only after a throw and at most three times in all, and a failed document is reprocessed only once the
    job that failed it can no longer run. Under it one upload or job at a time can write the status. */
module ProviderFault {
  import opened Wrappers
  import opened DecisionEngine
  import opened Schema
  import opened Transactions
  import opened Pipeline
  import opened AnyFault

  // ----- the hypothesis

  predicate AtProvider(t: Task) {
    t == Upload(UpStore) || (t.Ocr? && t.ocr.OcrRecognize?)
  }

  function LastWriter(s: Shared): Writer {
    if s.writes == [] then ByUpload else s.writes[|s.writes| - 1].writer
  }

  predicate Over(s: Shared, key: JobKey) {
    key in s.jobs ==> s.jobs[key].state == Completed || s.jobs[key].state == Exhausted
  }

  /** The job whose write made the document failed has completed or used up its attempts. */
  predicate FailingJobIsOver(s: Shared) {
    match LastWriter(s)
    case ByOcr(run) => Over(s, OcrKey(run))
    case ByExtraction(run) => Over(s, ExtractKey(run))
    case _ => true
  }

  /** The steps the restricted model allows. Webhook deliveries and notifications may still fail anywhere. */
  predicate Permitted(y: System, a: Action) {
    var s := y.shared;
    match a
    case RunTask(i, env) =>
      i < |y.tasks| ==>
        (env.fault == NoFault || AtProvider(y.tasks[i]) || y.tasks[i].Hook? || y.tasks[i].Notify?)
    case StartOcr(run) => OcrKey(run) in s.jobs ==> s.jobs[OcrKey(run)].state == Waiting
    case StartExtraction(run) => ExtractKey(run) in s.jobs ==> s.jobs[ExtractKey(run)].state == Waiting
    case ReprocessAction(_, _, run) =>
      && OcrKey(run) !in s.jobs && ExtractKey(run) !in s.jobs
      && (s.tables.row.status == Failed ==> FailingJobIsOver(s))
    case _ => true
  }

  predicate PermittedRun(y: System, actions: seq<Action>) {
    Follows(Permitted, y, actions)
  }

  // ----- who may still write the status

  datatype Holder = Nobody | HeldByTask(i: nat) | HeldByJob(key: JobKey)

  predicate Publishing(pc: ExtPc) {
    pc.ExtLogUnknown? || pc.ExtLog? || pc.ExtLogDecision? || pc.ExtNotify?
  }

  /** The task may still write the status, or its job may run again. */
  predicate Live(t: Task) {
    match t
    case Upload(pc) => pc != UpDone && pc != UpFailed
    case Ocr(_, _, pc) => pc != OcrReturned && pc != OcrThrew
    case Ext(_, _, pc, _) => !Publishing(pc) && pc != ExtReturned && pc != ExtThrew
    case Notify(_) => false
    case Rerun(_, enqueued) => !enqueued
    case Hook(_, _, _) => false
  }

  /** The pipeline job that a task is an unfinished execution of. */
  function RunsJob(t: Task): Option<JobKey> {
    match t
    case Ocr(run, _, pc) => if pc != OcrReturned && pc != OcrThrew then Some(OcrKey(run)) else None
    case Ext(run, _, pc, _) => if pc != ExtReturned && pc != ExtThrew then Some(ExtractKey(run)) else None
    case _ => None
  }

  ghost predicate Exclusive(s: Shared, tasks: seq<Task>, h: Holder) {
    && (forall i :: 0 <= i < |tasks| && Live(tasks[i]) ==> h == HeldByTask(i))
    && (forall k <- s.jobs :: s.jobs[k].state == Waiting ==> h == HeldByJob(k))
    && (forall i :: 0 <= i < |tasks| && RunsJob(tasks[i]).Some? ==>
          RunsJob(tasks[i]).value in s.jobs && s.jobs[RunsJob(tasks[i]).value].state == Active)
    && (forall i, j :: 0 <= i < j < |tasks| && RunsJob(tasks[i]).Some? ==> RunsJob(tasks[i]) != RunsJob(tasks[j]))
  }

  // ----- what the rows look like while somebody holds the document

  predicate Blank(s: Shared) {
    s.tables.extraction.None? && s.tables.row.docType.None? && s.tables.row.rawText.None?
  }

  predicate FreshRun(s: Shared, run: string) {
    OcrKey(run) !in s.jobs && ExtractKey(run) !in s.jobs
  }

  predicate FailedBy(s: Shared, w: Writer) {
    s.tables.row.status == Failed && LastWriter(s) == w
  }

  predicate AwaitsOcr(s: Shared, run: string) {
    && Blank(s) && ExtractKey(run) !in s.jobs
    && (s.tables.row.status == Uploaded || FailedBy(s, ByOcr(run)))
  }

  predicate AwaitsExtraction(s: Shared, run: string) {
    && s.tables.extraction.None? && s.tables.row.rawText.Some?
    && (s.tables.row.status == Extracted || FailedBy(s, ByExtraction(run)))
  }

  predicate JobPhase(s: Shared, key: JobKey) {
    match key
    case OcrKey(run) => AwaitsOcr(s, run)
    case ExtractKey(run) => AwaitsExtraction(s, run)
  }

  predicate TaskPhase(s: Shared, t: Task) {
    var row := s.tables.row;
    match t
    case Upload(_) => Blank(s) && row.status == Uploaded && s.jobs == map[]
    case Rerun(run, _) => Blank(s) && row.status == Uploaded && FreshRun(s, run)
    case Ocr(run, _, pc) =>
      && ExtractKey(run) !in s.jobs && s.tables.extraction.None? && row.docType.None?
      && (pc.OcrRead? || pc.OcrMark? ==> AwaitsOcr(s, run))
      && (pc.OcrRecognize? || pc.OcrStore? || pc.OcrFail? ==> row.status == OcrProcessing && row.rawText.None?)
      && (pc.OcrLog? || pc.OcrHandOver? ==> row.status == Extracted && row.rawText.Some?)
    case Ext(run, _, pc, _) =>
      && row.rawText.Some?
      && (pc.ExtRead? || pc.ExtEmpty? || pc.ExtTenant? || pc.ExtMark? ==> AwaitsExtraction(s, run))
      && (pc.ExtLogEmpty? || pc.ExtLogFail? ==> s.tables.extraction.None? && FailedBy(s, ByExtraction(run)))
      && (pc.ExtClassify? || pc.ExtUnknown? || pc.ExtType? || pc.ExtFail? ==>
            s.tables.extraction.None? && row.status == Extracting)
      && (pc.ExtType? ==> pc.docType != UnknownType)
      && (pc.ExtCall? || pc.ExtInsert? ==> s.tables.extraction.None? && row.status == Extracting && row.docType.Some?)
      && (pc.ExtPublish? ==>
            && row.status == Extracting && row.docType.Some?
            && s.tables.extraction == Some(Persist(pc.invoice))
            && pc.verdict == Evaluate(pc.invoice, Threshold(pc.tenant)))
    case _ => true
  }

  /** A settled document: its shape by status. */
  predicate Settled(s: Shared) {
    var row := s.tables.row;
    && (row.status == PendingReview || row.status == Approved || row.status == Rejected || row.status == Failed)
    && (row.status != Failed ==> row.docType.Some? && (s.tables.extraction.Some? || row.docType == Some(UnknownType)))
  }

  ghost predicate Phase(s: Shared, tasks: seq<Task>, h: Holder) {
    match h
    case Nobody => Settled(s)
    case HeldByJob(k) => k in s.jobs && s.jobs[k].state == Waiting && s.jobs[k].executions < JOB_ATTEMPTS
        && JobPhase(s, k)
    case HeldByTask(i) => i < |tasks| && Live(tasks[i]) && TaskPhase(s, tasks[i])
  }

  ghost predicate Held(y: System, h: Holder) {
    Exclusive(y.shared, y.tasks, h) && Phase(y.shared, y.tasks, h)
  }

  // ----- the holder after a step

  function HolderAfterTask(s': Shared, i: nat, t: Task, m: Move): Holder {
    if Live(m.task) then HeldByTask(i)
    else match t
      case Upload(_) => if m.task == Upload(UpDone) then HeldByJob(OcrKey("initial")) else Nobody
      case Rerun(run, _) => HeldByJob(OcrKey(run))
      case Ocr(run, _, _) =>
        if m.ending == Returns then HeldByJob(ExtractKey(run))
        else if OcrKey(run) in s'.jobs && s'.jobs[OcrKey(run)].state == Waiting then HeldByJob(OcrKey(run)) else Nobody
      case Ext(run, _, _, _) =>
        if ExtractKey(run) in s'.jobs && s'.jobs[ExtractKey(run)].state == Waiting then HeldByJob(ExtractKey(run))
            else Nobody
      case _ => Nobody
  }

  function NextHolder(y: System, h: Holder, a: Action): Holder {
    var y' := Next(y, a);
    match a
    case RunTask(i, env) =>
      if i < |y.tasks| && Live(y.tasks[i])
          then HolderAfterTask(y'.shared, i, y.tasks[i], MoveOf(y.shared, y.tasks[i], env)) else h
    case StartOcr(run) => if OcrKey(run) in y.shared.jobs then HeldByTask(|y.tasks|) else h
    case StartExtraction(run) => if ExtractKey(run) in y.shared.jobs then HeldByTask(|y.tasks|) else h
    case ReprocessAction(_, _, run) => if |y'.tasks| > |y.tasks| then HeldByTask(|y.tasks|) else h
    case _ => h
  }

  // ----- steps of tasks that are not live leave the document's rows and the pipeline jobs alone

  ghost predicate Untouched(s: Shared, s': Shared) {
    && s'.tables.row == s.tables.row && s'.tables.extraction == s.tables.extraction && s'.writes == s.writes
    && s'.origin == s.origin
  }

  lemma QuietMove(s: Shared, t: Task, env: Env)
    requires !Live(t) && (t.Ext? ==> env.fault == NoFault)
    ensures QuietEffect(s, t, MoveOf(s, t, env).task, Effect(s, t, MoveOf(s, t, env)))
  {
    match t {
      case Ext(_, _, _, _) => QuietExt(s, t, env);
      case Hook(_, _, _) => QuietHook(s, t, env);
      case _ =>
    }
  }

  ghost predicate QuietEffect(s: Shared, t: Task, t': Task, s': Shared) {
    && !Live(t') && Untouched(s, s')
    && (RunsJob(t).None? ==> s'.jobs == s.jobs && RunsJob(t').None?)
    && (RunsJob(t).Some? && RunsJob(t').Some? ==> s'.jobs == s.jobs && RunsJob(t') == RunsJob(t))
    && (RunsJob(t).Some? && RunsJob(t').None? && RunsJob(t).value in s.jobs ==>
          s'.jobs == s.jobs[RunsJob(t).value := s.jobs[RunsJob(t).value].(state := Completed)])
  }

  lemma QuietExt(s: Shared, t: Task, env: Env)
    requires t.Ext? && !Live(t) && env.fault == NoFault
    ensures QuietEffect(s, t, ExtMove(s, t, env).task, Effect(s, t, ExtMove(s, t, env)))
  {
    var m := ExtMove(s, t, env);
    assert m.op == NoOp || m.op.AppendRow? || m.op.AddWebhook?;
  }

  lemma QuietHook(s: Shared, t: Task, env: Env)
    requires t.Hook?
    ensures QuietEffect(s, t, HookMove(s, t, env).task, Effect(s, t, HookMove(s, t, env)))
  {
    var m := HookMove(s, t, env);
    assert m.op == NoOp || m.op.AppendRow? || m.op.InsertDelivery? || m.op.RecordDelivery? || m.op.Send?;
  }

  lemma QuietStep(y: System, h: Holder, i: nat, env: Env)
    requires Held(y, h) && i < |y.tasks| && !Live(y.tasks[i]) && Permitted(y, RunTask(i, env))
    ensures Held(Next(y, RunTask(i, env)), h)
  {
    QuietMove(y.shared, y.tasks[i], env);
    var y' := Next(y, RunTask(i, env));
    assert forall j :: 0 <= j < |y.tasks| && j != i ==> y'.tasks[j] == y.tasks[j];
    QuietExclusive(y, h, i, env);
    QuietPhase(y, h, i, env);
  }

  lemma QuietExclusive(y: System, h: Holder, i: nat, env: Env)
    requires Held(y, h) && i < |y.tasks| && !Live(y.tasks[i]) && Permitted(y, RunTask(i, env))
    ensures var y' := Next(y, RunTask(i, env)); Exclusive(y'.shared, y'.tasks, h)
  {
    QuietMove(y.shared, y.tasks[i], env);
    var y' := Next(y, RunTask(i, env));
    assert forall j :: 0 <= j < |y.tasks| && j != i ==> y'.tasks[j] == y.tasks[j];
  }

  lemma QuietPhase(y: System, h: Holder, i: nat, env: Env)
    requires Held(y, h) && i < |y.tasks| && !Live(y.tasks[i]) && Permitted(y, RunTask(i, env))
    ensures var y' := Next(y, RunTask(i, env)); Phase(y'.shared, y'.tasks, h)
  {
    QuietMove(y.shared, y.tasks[i], env);
    var y' := Next(y, RunTask(i, env));
    assert y'.shared.jobs.Keys == y.shared.jobs.Keys;
    assert LastWriter(y'.shared) == LastWriter(y.shared);
  }

  // ----- steps of the one live task

  ghost predicate Advances(s: Shared, t: Task, t': Task, s': Shared, h': Holder) {
    && s'.writes != []
    && s.jobs.Keys <= s'.jobs.Keys
    && (forall k <- s.jobs :: RunsJob(t) != Some(k) ==> s'.jobs[k] == s.jobs[k])
    && (forall k <- s'.jobs :: s'.jobs[k].state == Waiting && (k !in s.jobs || RunsJob(t) == Some(k)) ==>
          h' == HeldByJob(k))
    && (RunsJob(t').Some? ==>
          RunsJob(t') == RunsJob(t) && RunsJob(t').value in s'.jobs && s'.jobs[RunsJob(t').value].state == Active)
    && match h'
       case Nobody => !Live(t') && Settled(s')
       case HeldByJob(k) =>
         !Live(t') && k in s'.jobs && s'.jobs[k].state == Waiting && s'.jobs[k].executions < JOB_ATTEMPTS
             && JobPhase(s', k)
       case HeldByTask(_) => Live(t') && TaskPhase(s', t')
  }

  ghost predicate OnActiveJob(s: Shared, t: Task) {
    RunsJob(t).Some? ==> RunsJob(t).value in s.jobs && s.jobs[RunsJob(t).value].state == Active
  }

  lemma UploadAdvances(s: Shared, t: Task, env: Env, i: nat)
    requires t.Upload? && Live(t) && TaskPhase(s, t) && s.writes != []
    requires env.fault == NoFault || AtProvider(t)
    ensures var m := MoveOf(s, t, env); var s' := Effect(s, t, m);
            Advances(s, t, m.task, s', HolderAfterTask(s', i, t, m))
  {
  }

  lemma RerunAdvances(s: Shared, t: Task, env: Env, i: nat)
    requires t.Rerun? && Live(t) && TaskPhase(s, t) && env.fault == NoFault && s.writes != []
    ensures var m := MoveOf(s, t, env); var s' := Effect(s, t, m);
            Advances(s, t, m.task, s', HolderAfterTask(s', i, t, m))
  {
  }

  lemma OcrRecognizes(s: Shared, t: Task, env: Env, i: nat)
    requires t.Ocr? && (t.ocr.OcrRead? || t.ocr.OcrMark? || t.ocr.OcrRecognize? || t.ocr.OcrFail?)
    requires TaskPhase(s, t) && TaskOk(s, t) && OnActiveJob(s, t) && s.writes != []
    requires env.fault == NoFault || AtProvider(t)
    ensures var m := OcrMove(s, t, env); var s' := Effect(s, t, m);
            Advances(s, t, m.task, s', HolderAfterTask(s', i, t, m))
  {
  }

  lemma OcrHandsOver(s: Shared, t: Task, env: Env, i: nat)
    requires t.Ocr? && (t.ocr.OcrStore? || t.ocr.OcrLog? || t.ocr.OcrHandOver?)
    requires TaskPhase(s, t) && OnActiveJob(s, t) && s.writes != [] && env.fault == NoFault
    ensures var m := OcrMove(s, t, env); var s' := Effect(s, t, m);
            Advances(s, t, m.task, s', HolderAfterTask(s', i, t, m))
  {
  }

  predicate Reading(pc: ExtPc) {
    pc.ExtRead? || pc.ExtEmpty? || pc.ExtLogEmpty? || pc.ExtTenant? || pc.ExtMark?
  }

  lemma ExtReads(s: Shared, t: Task, env: Env, i: nat)
    requires t.Ext? && t.ext.ExtRead? && TaskPhase(s, t) && OnActiveJob(s, t) && env.fault == NoFault && s.writes != []
             && TaskOk(s, t)
    ensures var m := ExtMove(s, t, env); var s' := Effect(s, t, m);
            Advances(s, t, m.task, s', HolderAfterTask(s', i, t, m))
  {
  }

  lemma ExtEmpties(s: Shared, t: Task, env: Env, i: nat)
    requires t.Ext? && (t.ext.ExtEmpty? || t.ext.ExtLogEmpty?) && TaskPhase(s, t) && OnActiveJob(s, t)
             && env.fault == NoFault && s.writes != [] && TaskOk(s, t)
    ensures var m := ExtMove(s, t, env); var s' := Effect(s, t, m);
            Advances(s, t, m.task, s', HolderAfterTask(s', i, t, m))
  {
  }

  lemma ExtMarks(s: Shared, t: Task, env: Env, i: nat)
    requires t.Ext? && (t.ext.ExtTenant? || t.ext.ExtMark?) && TaskPhase(s, t) && OnActiveJob(s, t)
             && env.fault == NoFault && s.writes != [] && TaskOk(s, t)
    ensures var m := ExtMove(s, t, env); var s' := Effect(s, t, m);
            Advances(s, t, m.task, s', HolderAfterTask(s', i, t, m))
  {
  }

  lemma ExtClassifies(s: Shared, t: Task, env: Env, i: nat)
    requires t.Ext? && t.ext.ExtClassify? && TaskPhase(s, t) && OnActiveJob(s, t) && env.fault == NoFault
             && s.writes != []
    ensures var m := ExtMove(s, t, env); var s' := Effect(s, t, m);
            Advances(s, t, m.task, s', HolderAfterTask(s', i, t, m))
  {
  }

  lemma ExtExtracts(s: Shared, t: Task, env: Env, i: nat)
    requires t.Ext? && (t.ext.ExtType? || t.ext.ExtCall?) && TaskPhase(s, t) && OnActiveJob(s, t)
             && env.fault == NoFault && s.writes != []
    ensures var m := ExtMove(s, t, env); var s' := Effect(s, t, m);
            Advances(s, t, m.task, s', HolderAfterTask(s', i, t, m))
  {
  }

  lemma ExtRoutes(s: Shared, t: Task, env: Env, i: nat)
    requires t.Ext? && t.ext.ExtUnknown? && TaskPhase(s, t) && OnActiveJob(s, t) && env.fault == NoFault
             && s.writes != []
    ensures var m := ExtMove(s, t, env); var s' := Effect(s, t, m);
            Advances(s, t, m.task, s', HolderAfterTask(s', i, t, m))
  {
  }

  lemma ExtFails(s: Shared, t: Task, env: Env, i: nat)
    requires t.Ext? && t.ext.ExtFail? && TaskPhase(s, t) && OnActiveJob(s, t) && env.fault == NoFault && s.writes != []
    ensures var m := ExtMove(s, t, env); var s' := Effect(s, t, m);
            Advances(s, t, m.task, s', HolderAfterTask(s', i, t, m))
  {
  }

  lemma ExtRethrows(s: Shared, t: Task, env: Env, i: nat)
    requires t.Ext? && t.ext.ExtLogFail? && TaskPhase(s, t) && OnActiveJob(s, t) && env.fault == NoFault
             && s.writes != []
    ensures var m := ExtMove(s, t, env); var s' := Effect(s, t, m);
            Advances(s, t, m.task, s', HolderAfterTask(s', i, t, m))
  {
    var m := ExtMove(s, t, env);
    assert m == Move(AppendRow(m.op.row), t.(ext := ExtThrew), Throws);
    ThrowAdvances(s, t, m.op.row, i);
  }

  lemma ThrowAdvances(s: Shared, t: Task, r: AuditRow, i: nat)
    requires t.Ext? && t.ext.ExtLogFail? && TaskPhase(s, t) && OnActiveJob(s, t) && s.writes != []
    ensures var m := Move(AppendRow(r), t.(ext := ExtThrew), Throws); var s' := Effect(s, t, m);
            Advances(s, t, m.task, s', HolderAfterTask(s', i, t, m))
  {
  }

  lemma ExtInserts(s: Shared, t: Task, env: Env, i: nat)
    requires t.Ext? && t.ext.ExtInsert?
    requires TaskPhase(s, t) && OnActiveJob(s, t) && env.fault == NoFault && s.writes != []
    ensures var m := ExtMove(s, t, env); var s' := Effect(s, t, m);
            Advances(s, t, m.task, s', HolderAfterTask(s', i, t, m))
  {
  }

  lemma ExtPublishes(s: Shared, t: Task, env: Env, i: nat)
    requires t.Ext? && t.ext.ExtPublish?
    requires TaskPhase(s, t) && OnActiveJob(s, t) && env.fault == NoFault && s.writes != []
    ensures var m := ExtMove(s, t, env); var s' := Effect(s, t, m);
            Advances(s, t, m.task, s', HolderAfterTask(s', i, t, m))
  {
  }

  lemma ReadingAdvances(s: Shared, t: Task, env: Env, i: nat)
    requires t.Ext? && Reading(t.ext) && TaskPhase(s, t) && OnActiveJob(s, t) && env.fault == NoFault && s.writes != []
             && TaskOk(s, t)
    ensures var m := ExtMove(s, t, env); var s' := Effect(s, t, m);
            Advances(s, t, m.task, s', HolderAfterTask(s', i, t, m))
  {
    var pc := t.ext;
    if pc.ExtRead? { ExtReads(s, t, env, i); }
    else if pc.ExtEmpty? || pc.ExtLogEmpty? { ExtEmpties(s, t, env, i); }
    else { ExtMarks(s, t, env, i); }
  }

  lemma AttemptAdvances(s: Shared, t: Task, env: Env, i: nat)
    requires t.Ext? && Live(t) && !Reading(t.ext) && TaskPhase(s, t) && OnActiveJob(s, t) && env.fault == NoFault
             && s.writes != []
    ensures var m := ExtMove(s, t, env); var s' := Effect(s, t, m);
            Advances(s, t, m.task, s', HolderAfterTask(s', i, t, m))
  {
    var pc := t.ext;
    if pc.ExtClassify? { ExtClassifies(s, t, env, i); }
    else if pc.ExtType? || pc.ExtCall? { ExtExtracts(s, t, env, i); }
    else if pc.ExtInsert? { ExtInserts(s, t, env, i); }
    else if pc.ExtPublish? { ExtPublishes(s, t, env, i); }
    else if pc.ExtUnknown? { ExtRoutes(s, t, env, i); }
    else if pc.ExtFail? { ExtFails(s, t, env, i); }
    else { ExtRethrows(s, t, env, i); }
  }

  lemma TaskAdvances(s: Shared, t: Task, env: Env, i: nat)
    requires Live(t) && TaskPhase(s, t) && TaskOk(s, t) && OnActiveJob(s, t) && s.writes != []
    requires env.fault == NoFault || AtProvider(t)
    ensures var m := MoveOf(s, t, env); var s' := Effect(s, t, m);
            Advances(s, t, m.task, s', HolderAfterTask(s', i, t, m))
  {
    match t {
      case Upload(_) => UploadAdvances(s, t, env, i);
      case Rerun(_, _) => RerunAdvances(s, t, env, i);
      case Ocr(_, _, pc) =>
        if pc.OcrStore? || pc.OcrLog? || pc.OcrHandOver? { OcrHandsOver(s, t, env, i); }
            else { OcrRecognizes(s, t, env, i); }
      case Ext(_, _, pc, _) =>
        if Reading(pc) { ReadingAdvances(s, t, env, i); } else { AttemptAdvances(s, t, env, i); }
      case _ =>
    }
  }

  lemma LiveStep(y: System, h: Holder, i: nat, env: Env)
    requires SystemOk(y) && Held(y, h) && i < |y.tasks| && Live(y.tasks[i]) && Permitted(y, RunTask(i, env))
    ensures Held(Next(y, RunTask(i, env)), NextHolder(y, h, RunTask(i, env)))
  {
    assert TaskOk(y.shared, y.tasks[i]);
    TaskAdvances(y.shared, y.tasks[i], env, i);
    AdvanceKeepsHeld(y, h, i, MoveOf(y.shared, y.tasks[i], env).task, Next(y, RunTask(i, env)).shared,
        NextHolder(y, h, RunTask(i, env)));
  }

  lemma AdvanceKeepsHeld(y: System, h: Holder, i: nat, t': Task, s': Shared, h': Holder)
    requires Held(y, h) && i < |y.tasks| && Live(y.tasks[i]) && Advances(y.shared, y.tasks[i], t', s', h')
    requires h'.HeldByTask? ==> h'.i == i
    ensures Held(System(s', y.tasks[i := t']), h')
  {
    var tasks' := y.tasks[i := t'];
    assert forall j :: 0 <= j < |y.tasks| && j != i ==> tasks'[j] == y.tasks[j];
  }

  // ----- starts and reviewers

  lemma ActivatedExclusive(s: Shared, tasks: seq<Task>, key: JobKey, t: Task)
    requires Exclusive(s, tasks, HeldByJob(key)) && key in s.jobs && s.jobs[key].state == Waiting
             && RunsJob(t) == Some(key)
    ensures Exclusive(Activate(s, key), tasks + [t], HeldByTask(|tasks|))
  {
    var tasks' := tasks + [t];
    assert forall j :: 0 <= j < |tasks| ==> tasks'[j] == tasks[j];
  }

  lemma ActivatedPhase(s: Shared, key: JobKey, t: Task)
    requires key in s.jobs && JobPhase(s, key)
    requires t == match key case OcrKey(run) => Ocr(run, s.jobs[key].tenantId, OcrRead)
                            case ExtractKey(run) => Ext(run, s.jobs[key].tenantId, ExtRead, false)
    ensures TaskPhase(Activate(s, key), t) && Live(t) && RunsJob(t) == Some(key)
  {
  }

  lemma StartStep(y: System, h: Holder, a: Action)
    requires Held(y, h) && (a.StartOcr? || a.StartExtraction?) && Permitted(y, a)
    ensures Held(Next(y, a), NextHolder(y, h, a))
  {
    var s, y' := y.shared, Next(y, a);
    var key := if a.StartOcr? then OcrKey(a.run) else ExtractKey(a.run);
    if key in s.jobs {
      assert h == HeldByJob(key) && JobPhase(s, key);
      var t := y'.tasks[|y.tasks|];
      ActivatedPhase(s, key, t);
      ActivatedExclusive(s, y.tasks, key, t);
    }
  }

  lemma HookTaskAdded(s: Shared, s': Shared, tasks: seq<Task>, t: Task, h: Holder)
    requires Exclusive(s, tasks, h) && s'.jobs == s.jobs && t.Hook?
    ensures Exclusive(s', tasks + [t], h)
  {
    var tasks' := tasks + [t];
    assert forall k :: 0 <= k < |tasks| ==> tasks'[k] == tasks[k];
  }

  lemma WebhookStart(y: System, h: Holder, j: nat)
    requires Held(y, h)
    ensures Held(Next(y, StartWebhook(j)), h)
  {
    if j < |y.shared.webhooks| {
      var y' := Next(y, StartWebhook(j));
      HookTaskAdded(y.shared, y'.shared, y.tasks, y'.tasks[|y.tasks|], h);
      assert LastWriter(y'.shared) == LastWriter(y.shared);
    }
  }

  /** Reviewers act only on documents nobody holds. */
  lemma ReviewersWait(y: System, h: Holder, a: Action)
    requires Held(y, h) && IsReviewer(a) && Permitted(y, a) && ReviewerResult(y.shared.tables, a).outcome == Done
    ensures h == Nobody
  {
  }

  lemma ReviewerStep(y: System, h: Holder, a: Action)
    requires SystemOk(y) && Held(y, h) && IsReviewer(a) && Permitted(y, a)
    ensures Held(Next(y, a), NextHolder(y, h, a))
  {
    NextReviewer(y, a);
    if ReviewerResult(y.shared.tables, a).outcome == Done {
      ReviewersWait(y, h, a);
      ReviewerPhase(y.shared, a);
      ReviewerExclusive(y, h, a);
    }
  }

  lemma ReviewerPhase(s: Shared, a: Action)
    requires IsReviewer(a) && Settled(s) && ReviewerResult(s.tables, a).outcome == Done
    ensures var s' := Decided(s, a);
      s'.jobs == s.jobs && if a.ReprocessAction? then Blank(s') && s'.tables.row.status == Uploaded else Settled(s')
  {
  }

  lemma ReviewerExclusive(y: System, h: Holder, a: Action)
    requires Exclusive(y.shared, y.tasks, Nobody) && IsReviewer(a) && ReviewerResult(y.shared.tables, a).outcome == Done
    ensures Exclusive(Next(y, a).shared, Next(y, a).tasks, if a.ReprocessAction? then HeldByTask(|y.tasks|) else Nobody)
  {
    var y' := Next(y, a);
    assert y'.shared.jobs == y.shared.jobs;
    assert forall j :: 0 <= j < |y.tasks| ==> y'.tasks[j] == y.tasks[j];
  }

  lemma StepHeld(y: System, h: Holder, a: Action)
    requires SystemOk(y) && Held(y, h) && Permitted(y, a)
    ensures Held(Next(y, a), NextHolder(y, h, a))
  {
    match a {
      case RunTask(i, env) =>
        if i < |y.tasks| {
          if Live(y.tasks[i]) { LiveStep(y, h, i, env); } else { QuietStep(y, h, i, env); }
        }
      case StartOcr(_) => StartStep(y, h, a);
      case StartExtraction(_) => StartStep(y, h, a);
      case StartWebhook(j) => WebhookStart(y, h, j);
      case _ => ReviewerStep(y, h, a);
    }
  }
}
