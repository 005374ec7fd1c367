/** The theorems of the unrestricted fault model, for every run of one document. */
module AnyFaultTheorems {
  import opened Wrappers
  import opened DecisionEngine
  import opened Schema
  import opened Transactions
  import opened Pipeline
  import opened AnyFault

  // ----- accounts kept across tasks, log and writes

  predicate IsAutoWrite(w: Write) { w.writer.ByExtraction? && w.after == Approved }

  predicate IsAutoRow(r: AuditRow) { r.event == AutoApprovedEvent }

  predicate Owes(t: Task) { t.Ext? && t.owes }

  /** The status is written and the auto_approved row is not. */
  predicate BetweenWriteAndRow(pc: ExtPc) {
    (pc.ExtLog? || pc.ExtLogDecision?) && pc.verdict.decision == AutoApprove
  }

  predicate Aborted(pc: ExtPc) { pc.ExtFail? || pc.ExtLogFail? || pc.ExtThrew? }

  predicate IsPublication(w: Write) { w.after == Approved || w.after == Rejected }

  predicate OwesWebhook(t: Task) {
    || (t.Notify? && t.notify != NotifyDone)
    || (t.Ext? && (t.ext.ExtLog? || t.ext.ExtLogDecision?) && t.ext.verdict.decision == AutoApprove)
    || (t.Ext? && t.ext.ExtNotify?)
  }

  function One(b: bool): nat { if b then 1 else 0 }

  ghost predicate Accounts(y: System) {
    var s := y.shared;
    && CountIf(s.writes, IsAutoWrite) == CountIf(s.tables.log, IsAutoRow) + CountIf(y.tasks, Owes)
    && |s.webhooks| + CountIf(y.tasks, OwesWebhook) <= CountIf(s.writes, IsPublication)
  }

  predicate AutoWriteOp(op: Op) { op.SaveStatus? && op.writer.ByExtraction? && op.status == Approved }

  predicate AutoRowOp(op: Op) { op.AppendRow? && IsAutoRow(op.row) }

  predicate PublicationOp(op: Op) { op.SaveStatus? && (op.status == Approved || op.status == Rejected) }

  lemma DoAccounts(s: Shared, op: Op)
    ensures var s' := Do(s, op);
      && CountIf(s'.writes, IsAutoWrite) == CountIf(s.writes, IsAutoWrite) + One(AutoWriteOp(op))
      && CountIf(s'.tables.log, IsAutoRow) == CountIf(s.tables.log, IsAutoRow) + One(AutoRowOp(op))
      && CountIf(s'.writes, IsPublication) == CountIf(s.writes, IsPublication) + One(PublicationOp(op))
      && |s'.webhooks| == |s.webhooks| + One(op.AddWebhook?)
  {
    var s' := Do(s, op);
    if |s'.writes| == |s.writes| + 1 {
      CountIfSnoc(s.writes, s'.writes[|s.writes|], IsAutoWrite);
      CountIfSnoc(s.writes, s'.writes[|s.writes|], IsPublication);
    }
    if op.AppendRow? {
      CountIfSnoc(s.tables.log, op.row, IsAutoRow);
    }
  }

  ghost predicate MoveBalances(t: Task, m: Move) {
    && One(AutoWriteOp(m.op)) + One(Owes(t)) == One(AutoRowOp(m.op)) + One(Owes(m.task))
    && One(m.op.AddWebhook?) + One(OwesWebhook(m.task)) <= One(PublicationOp(m.op)) + One(OwesWebhook(t))
  }

  lemma ExtBalancesBefore(s: Shared, t: Task, env: Env)
    requires t.Ext? && TaskOk(s, t) && BeforePublish(t.ext)
    ensures MoveBalances(t, ExtMove(s, t, env))
  {
  }

  lemma ExtBalancesAfter(s: Shared, t: Task, env: Env)
    requires t.Ext? && TaskOk(s, t) && !BeforePublish(t.ext)
    ensures MoveBalances(t, ExtMove(s, t, env))
  {
  }

  lemma MoveIsBalanced(s: Shared, t: Task, env: Env)
    requires TaskOk(s, t)
    ensures MoveBalances(t, MoveOf(s, t, env))
  {
    if t.Ext? {
      if BeforePublish(t.ext) { ExtBalancesBefore(s, t, env); } else { ExtBalancesAfter(s, t, env); }
    }
  }

  lemma EndKeepsAccounts(s: Shared, t: Task, ending: Ending)
    ensures var s' := End(s, t, ending);
            s'.writes == s.writes && s'.tables == s.tables && |s'.webhooks| == |s.webhooks|
  {
  }

  lemma TaskAccounts(y: System, i: nat, env: Env)
    requires i < |y.tasks| && TaskOk(y.shared, y.tasks[i]) && Accounts(y)
    ensures Accounts(Next(y, RunTask(i, env)))
  {
    var m := MoveOf(y.shared, y.tasks[i], env);
    MoveIsBalanced(y.shared, y.tasks[i], env);
    DoAccounts(y.shared, m.op);
    EndKeepsAccounts(Do(y.shared, m.op), y.tasks[i], m.ending);
    CountIfUpdate(y.tasks, i, m.task, Owes);
    CountIfUpdate(y.tasks, i, m.task, OwesWebhook);
  }

  /** What a reviewer's transaction appends. */
  lemma ReviewerAppends(s: Shared, a: Action)
    requires IsReviewer(a) && ReviewerResult(s.tables, a).outcome == Done
    ensures var s' := Decided(s, a);
      && |s'.tables.log| == |s.tables.log| + 1 && s'.tables.log == s.tables.log + [s'.tables.log[|s.tables.log|]]
      && !IsAutoRow(s'.tables.log[|s.tables.log|]) && s'.webhooks == s.webhooks
      && if a.EditAction? then s'.writes == s.writes
         else s'.writes == s.writes + [Write(ByReviewer, s.tables.row.status, s'.tables.row.status)]
              && (!a.ReprocessAction? ==> IsPublication(s'.writes[|s.writes|]))
  {
  }

  lemma ReviewerTasks(y: System, a: Action)
    requires IsReviewer(a)
    ensures Next(y, a).tasks
            == if ReviewerResult(y.shared.tables, a).outcome != Done || a.EditAction? then y.tasks
               else y.tasks + [if a.ReprocessAction? then Rerun(a.run, false) else Notify(NotifyRead)]
  {
  }

  lemma ReviewerAccounts(y: System, a: Action)
    requires IsReviewer(a) && Accounts(y)
    ensures Accounts(Next(y, a))
  {
    var s, y' := y.shared, Next(y, a);
    var s' := y'.shared;
    NextReviewer(y, a);
    ReviewerTasks(y, a);
    if ReviewerResult(s.tables, a).outcome == Done {
      ReviewerAppends(s, a);
      CountIfSnoc(s.tables.log, s'.tables.log[|s.tables.log|], IsAutoRow);
      if !a.EditAction? {
        CountIfSnoc(s.writes, s'.writes[|s.writes|], IsAutoWrite);
        CountIfSnoc(s.writes, s'.writes[|s.writes|], IsPublication);
        CountIfSnoc(y.tasks, y'.tasks[|y.tasks|], Owes);
        CountIfSnoc(y.tasks, y'.tasks[|y.tasks|], OwesWebhook);
      }
    }
  }

  lemma StartAccounts(y: System, a: Action)
    requires !IsReviewer(a) && !a.RunTask? && Accounts(y)
    ensures Accounts(Next(y, a))
  {
    var y' := Next(y, a);
    assert y'.shared.tables == y.shared.tables && y'.shared.writes == y.shared.writes;
    if |y'.tasks| == |y.tasks| + 1 {
      CountIfSnoc(y.tasks, y'.tasks[|y.tasks|], Owes);
      CountIfSnoc(y.tasks, y'.tasks[|y.tasks|], OwesWebhook);
    }
  }

  lemma StepAccounts(y: System, a: Action)
    requires SystemOk(y) && Accounts(y)
    ensures Accounts(Next(y, a))
  {
    if IsReviewer(a) {
      ReviewerAccounts(y, a);
    } else if a.RunTask? {
      if a.i < |y.tasks| { TaskAccounts(y, a.i, a.env); }
    } else {
      StartAccounts(y, a);
    }
  }

  lemma StartIsOk(id: string, tenantId: string, uploadedBy: string, fileName: string)
    ensures SystemOk(Start(id, tenantId, uploadedBy, fileName)) && Accounts(Start(id, tenantId, uploadedBy, fileName))
  {
    var y := Start(id, tenantId, uploadedBy, fileName);
    assert y.shared.tables.log == [] && y.shared.sent == [] && y.shared.deliveries == [];
    assert LedgerOk(y.shared) by {
      assert ReviewerWrites(y.shared.writes) == [] by { assert y.shared.writes[..0] == []; }
    }
    assert StorageOk(y.shared) && ValuesOk(y.shared) && TenantsOk(y.shared) && DeliveriesOk(y.shared)
        && ReplayOk(y.shared);
    assert y.tasks[1..] == [] && y.shared.writes[1..] == [];
  }

  /** Every invariant holds after every sequence of actions. */
  lemma {:induction false} Always(y: System, actions: seq<Action>)
    requires SystemOk(y) && Accounts(y)
    ensures SystemOk(Run(y, actions)) && Accounts(Run(y, actions))
    ensures Rely(y.shared, Run(y, actions).shared)
  {
    if actions != [] {
      var before := actions[..|actions| - 1];
      Always(y, before);
      StepOk(Run(y, before), actions[|actions| - 1]);
      StepAccounts(Run(y, before), actions[|actions| - 1]);
    }
  }

  ghost predicate Reachable(y: System) {
    exists id, tenantId, uploadedBy, fileName, actions :: ReachedBy(y, id, tenantId, uploadedBy, fileName, actions)
  }

  ghost predicate ReachedBy(
      y: System, id: string, tenantId: string, uploadedBy: string, fileName: string, actions: seq<Action>) {
    y == Run(Start(id, tenantId, uploadedBy, fileName), actions)
  }

  lemma ReachableIsOk(y: System)
    requires Reachable(y)
    ensures SystemOk(y) && Accounts(y)
  {
    var id, tenantId, uploadedBy, fileName, actions :| ReachedBy(y, id, tenantId, uploadedBy, fileName, actions);
    StartIsOk(id, tenantId, uploadedBy, fileName);
    Always(Start(id, tenantId, uploadedBy, fileName), actions);
  }

  // ----- theorems

  /** Replay: the stored extraction is the last inserted one with the edits logged since, applied one by one
      or as one merged edit. */
  lemma ExtractionIsReplayed(y: System)
    requires Reachable(y)
    ensures y.shared.tables.extraction.Some? <==> y.shared.origin.Some?
    ensures y.shared.origin.Some? ==>
              var o := y.shared.origin.value;
              && o.logLength <= |y.shared.tables.log|
              && y.shared.tables.extraction.value == Replay(o.row, EditsIn(y.shared.tables.log[o.logLength..]))
              && y.shared.tables.extraction.value
                  == ApplyEdit(o.row, MergeAll(EditsIn(y.shared.tables.log[o.logLength..])))
  {
    ReachableIsOk(y);
    if y.shared.origin.Some? {
      var o := y.shared.origin.value;
      ReplayIsOneMergedEdit(o.row, EditsIn(y.shared.tables.log[o.logLength..]));
    }
  }

  lemma {:induction false} LastReviewerWrite(writes: seq<Write>)
    requires writes != [] && writes[|writes| - 1].writer == ByReviewer
    ensures ReviewerWrites(writes) != [] && ReviewerWrites(writes)[|ReviewerWrites(writes)| - 1] == writes[|writes| - 1]
  {
  }

  /** Conservation: the decision rows are, in order, exactly the reviewers' status writes, each out of the
      status its operation demands; a rejected document's last decision row is its rejection; and every
      auto-approval is logged or still owed by the execution that wrote it, which stands between the two steps
      or was aborted there. */
  lemma DecisionsAreConserved(y: System)
    requires Reachable(y)
    ensures DecisionRows(y.shared.tables.log) == ReviewerWrites(y.shared.writes)
    ensures forall r <- y.shared.tables.log :: IsDecision(r) ==>
              r.prevStatus.Some? && r.newStatus == Some(DecisionStatus(r.event))
    ensures forall w <- y.shared.writes :: w.writer == ByReviewer ==> LegalDecision(w)
    ensures y.shared.tables.row.status == Rejected ==>
              var ds := DecisionRows(y.shared.tables.log); ds != [] && ds[|ds| - 1].after == Rejected
    ensures CountIf(y.shared.writes, IsAutoWrite) == CountIf(y.shared.tables.log, IsAutoRow) + CountIf(y.tasks, Owes)
    ensures forall t <- y.tasks :: Owes(t) ==> BetweenWriteAndRow(t.ext) || Aborted(t.ext)
  {
    ReachableIsOk(y);
    assert forall t <- y.tasks :: TaskOk(y.shared, t);
    var writes := y.shared.writes;
    if y.shared.tables.row.status == Rejected {
      assert writes[|writes| - 1] in writes;
      LastReviewerWrite(writes);
    }
  }

  /** Storage and text: a document past OCR points at its own uploaded object, and one that waits for
      extraction has text. */
  lemma StorageIsOrdered(y: System)
    requires Reachable(y)
    ensures var row := y.shared.tables.row;
      && (row.status in {Extracted, Extracting, PendingReview, Approved, Rejected} ==>
            row.storageKey == FileKey(row.tenantId, row.id, row.fileName) && row.storageKey != PLACEHOLDER_KEY)
      && (row.status == Extracted ==> row.rawText.Some?)
  {
    ReachableIsOk(y);
    FileKeyIsNotPlaceholder(y.shared.tables.row.tenantId, y.shared.tables.row.id, y.shared.tables.row.fileName);
  }

  /** Whatever a model answers or a reviewer enters, the stored text is plain and the stored extraction fits its
      columns. */
  lemma StoredValuesFit(y: System)
    requires Reachable(y)
    ensures IsPlainOption(y.shared.tables.row.rawText)
    ensures y.shared.tables.extraction.Some? ==> Fits(y.shared.tables.extraction.value)
  {
    ReachableIsOk(y);
  }

  /** Webhooks: never more jobs than publications; every payload names a status the document really held,
      and a rejection's reason comes from a rejection at least as recent as the one observed. */
  lemma WebhooksAreAccountedFor(y: System)
    requires Reachable(y)
    ensures |y.shared.webhooks| <= CountIf(y.shared.writes, IsPublication)
    ensures forall m <- y.shared.sent ::
              && (exists k :: 0 <= k < |y.shared.writes| && y.shared.writes[k].after == m.payload.status)
              && (m.payload.status == Rejected ==>
                    && m.payload.reason.Some? && m.seen.logSeen <= |y.shared.tables.log|
                    && 0 <= LastRejection(y.shared.tables.log[..m.seen.logSeen])
                    && exists j :: LastRejection(y.shared.tables.log[..m.seen.logSeen]) <= j < |y.shared.tables.log|
                                   && GivesReason(y.shared.tables.log[j], m.payload.reason.value))
  {
    ReachableIsOk(y);
    forall m <- y.shared.sent
      ensures exists k :: 0 <= k < |y.shared.writes| && y.shared.writes[k].after == m.payload.status
    {
      assert MessageOk(y.shared, m);
      assert y.shared.writes[m.seen.writesSeen - 1].after == m.payload.status;
    }
  }

  /** Attempt numbers under any interleaving: never above the row's position, dead letters only from the
      third row on, plain failures only below the third attempt. */
  lemma AttemptNumbers(y: System)
    requires Reachable(y)
    ensures forall i :: 0 <= i < |y.shared.deliveries| ==>
              && 1 <= y.shared.deliveries[i].attempt <= i + 1
              && (y.shared.deliveries[i].status == DeadLetter ==> i >= 2 && |y.shared.deliveries| >= 3)
              && (y.shared.deliveries[i].status == FailedDelivery ==> y.shared.deliveries[i].attempt < 3)
  {
    ReachableIsOk(y);
  }

  /** Every queued job and every running execution names the tenant that owns the document. */
  lemma JobsNameTheOwner(y: System)
    requires Reachable(y)
    ensures forall k <- y.shared.jobs :: y.shared.jobs[k].tenantId == y.shared.tables.row.tenantId
    ensures forall w <- y.shared.webhooks :: w.tenantId == y.shared.tables.row.tenantId
    ensures forall t <- y.tasks :: t.Ocr? || t.Ext? || t.Hook? ==> t.tenantId == y.shared.tables.row.tenantId
  {
    ReachableIsOk(y);
    assert forall t <- y.tasks :: TaskOk(y.shared, t);
  }

  // ----- approval is not final here

  /** A running task whose next operation overwrites the status with something other than approved. */
  predicate OverwritesApproval(t: Task) {
    match t
    case Upload(pc) => pc.UpFail?
    case Ocr(_, _, pc) => pc.OcrMark? || pc.OcrFail? || (pc.OcrStore? && IsPlain(pc.text))
    case Ext(_, _, pc, _) =>
      pc.ExtEmpty? || pc.ExtMark? || pc.ExtUnknown? || pc.ExtFail?
          || (pc.ExtPublish? && pc.verdict.decision != AutoApprove)
    case _ => false
  }

  lemma OverwritingMove(s: Shared, t: Task, env: Env)
    requires s.tables.row.status == Approved
    ensures Do(s, MoveOf(s, t, env).op).tables.row.status != Approved <==>
              OverwritesApproval(t) && env.fault != LostBefore
  {
    match t {
      case Ext(_, _, _, _) => OverwritingExt(s, t, env);
      case Ocr(_, _, _) => OverwritingOcr(s, t, env);
      case Hook(_, _, _) => OverwritingHook(s, t, env);
      case _ =>
    }
  }

  lemma OverwritingExt(s: Shared, t: Task, env: Env)
    requires t.Ext? && s.tables.row.status == Approved
    ensures Do(s, ExtMove(s, t, env).op).tables.row.status != Approved <==>
              OverwritesApproval(t) && env.fault != LostBefore
  {
    if BeforePublish(t.ext) { OverwritingEarly(s, t, env); } else { OverwritingLate(s, t, env); }
  }

  lemma OverwritingEarly(s: Shared, t: Task, env: Env)
    requires t.Ext? && BeforePublish(t.ext) && s.tables.row.status == Approved
    ensures Do(s, ExtMove(s, t, env).op).tables.row.status != Approved <==>
              OverwritesApproval(t) && env.fault != LostBefore
  {
  }

  lemma OverwritingLate(s: Shared, t: Task, env: Env)
    requires t.Ext? && !BeforePublish(t.ext) && s.tables.row.status == Approved
    ensures Do(s, ExtMove(s, t, env).op).tables.row.status != Approved <==>
              OverwritesApproval(t) && env.fault != LostBefore
  {
  }

  lemma OverwritingOcr(s: Shared, t: Task, env: Env)
    requires t.Ocr? && s.tables.row.status == Approved
    ensures Do(s, OcrMove(s, t, env).op).tables.row.status != Approved <==>
              OverwritesApproval(t) && env.fault != LostBefore
  {
  }

  lemma OverwritingHook(s: Shared, t: Task, env: Env)
    requires t.Hook? && s.tables.row.status == Approved
    ensures Do(s, HookMove(s, t, env).op).tables.row.status == Approved
  {
  }

  /** Exactly which steps take an approved document out of that status: no reviewer, no start of a job, and
      of the running tasks only one that stands before an unconditional write of another status. */
  lemma LeavesApproved(y: System, a: Action)
    requires y.shared.tables.row.status == Approved
    ensures Next(y, a).shared.tables.row.status != Approved
            <==> a.RunTask? && a.i < |y.tasks| && OverwritesApproval(y.tasks[a.i]) && a.env.fault != LostBefore
  {
    if a.RunTask? && a.i < |y.tasks| {
      var t := y.tasks[a.i];
      var m := MoveOf(y.shared, t, a.env);
      OverwritingMove(y.shared, t, a.env);
      EndKeepsAccounts(Do(y.shared, m.op), t, m.ending);
    }
  }

  // ----- whoever got past the upload has an OCR job

  ghost predicate HasOcrJob(s: Shared) { exists run :: OcrKey(run) in s.jobs }

  predicate PastUpload(status: Status) { status != Uploaded && status != Failed }

  ghost predicate QueuesOk(y: System) {
    && (y.shared.jobs != map[] || PastUpload(y.shared.tables.row.status) ==> HasOcrJob(y.shared))
    && (forall t <- y.tasks :: t.Ocr? || t.Ext? ==> HasOcrJob(y.shared))
  }

  lemma TaskKeepsJobs(s: Shared, t: Task, env: Env)
    ensures var m := MoveOf(s, t, env); var s' := Effect(s, t, m);
      && s.jobs.Keys <= s'.jobs.Keys && (m.task.Ocr? <==> t.Ocr?) && (m.task.Ext? <==> t.Ext?)
      && (t.Ocr? || t.Ext? || HasOcrJob(s') || (s'.jobs == s.jobs
          && (PastUpload(s'.tables.row.status) ==> PastUpload(s.tables.row.status))))
  {
    match t {
      case Ext(_, _, _, _) => ExtKeepsJobs(s, t, env);
      case Hook(_, _, _) => HookKeepsJobs(s, t, env);
      case Upload(_) => UploadKeepsJobs(s, t, env);
      case _ =>
    }
  }

  lemma ExtKeepsJobs(s: Shared, t: Task, env: Env)
    requires t.Ext?
    ensures var m := ExtMove(s, t, env); m.task.Ext? && s.jobs.Keys <= Effect(s, t, m).jobs.Keys
  {
  }

  lemma HookKeepsJobs(s: Shared, t: Task, env: Env)
    requires t.Hook?
    ensures var m := HookMove(s, t, env);
      && m.task.Hook?
      && Effect(s, t, m).jobs == s.jobs && Effect(s, t, m).tables.row == s.tables.row
  {
    var m := HookMove(s, t, env);
    assert m.op == NoOp || m.op.AppendRow? || m.op.InsertDelivery? || m.op.RecordDelivery? || m.op.Send?;
  }

  lemma UploadKeepsJobs(s: Shared, t: Task, env: Env)
    requires t.Upload?
    ensures var m := MoveOf(s, t, env); var s' := Effect(s, t, m);
      && m.task.Upload?
      && (s'.jobs == s.jobs || OcrKey("initial") in s'.jobs)
      && (PastUpload(s'.tables.row.status) ==> PastUpload(s.tables.row.status))
      && s.jobs.Keys <= s'.jobs.Keys
  {
  }

  lemma StepQueues(y: System, a: Action)
    requires QueuesOk(y)
    ensures QueuesOk(Next(y, a))
  {
    if a.RunTask? {
      if a.i < |y.tasks| {
        TaskKeepsJobs(y.shared, y.tasks[a.i], a.env);
      }
    } else if IsReviewer(a) {
      NextReviewer(y, a);
    }
  }

  lemma {:induction false} AlwaysQueues(y: System, actions: seq<Action>)
    requires QueuesOk(y)
    ensures QueuesOk(Run(y, actions))
  {
    if actions != [] {
      AlwaysQueues(y, actions[..|actions| - 1]);
      StepQueues(Run(y, actions[..|actions| - 1]), actions[|actions| - 1]);
    }
  }

  /** Redelivering an OCR job of an approved document takes it out of that status and changes nothing else of
      its rows. */
  lemma RedeliveredOcrUndoesApproval(y: System, run: string, env: Env)
    requires Reachable(y) && y.shared.tables.row.status == Approved && OcrKey(run) in y.shared.jobs
    requires env.fault == NoFault
    ensures var n := |y.tasks|;
            var s' := Next(Next(Next(y, StartOcr(run)), RunTask(n, env)), RunTask(n, env)).shared;
      && s'.tables == SetStatus(y.shared.tables, OcrProcessing) && s'.jobs.Keys == y.shared.jobs.Keys
  {
    ReachableIsOk(y);
  }

  /** Approval is never final in this model: every reachable approved document has an OCR job, whose redelivery
      undoes the approval. */
  lemma ApprovalIsNeverFinal(y: System, env: Env) returns (run: string)
    requires Reachable(y) && y.shared.tables.row.status == Approved && env.fault == NoFault
    ensures OcrKey(run) in y.shared.jobs
    ensures var redelivery := [StartOcr(run), RunTask(|y.tasks|, env), RunTask(|y.tasks|, env)];
            var s' := Run(y, redelivery).shared;
      && s'.tables == SetStatus(y.shared.tables, OcrProcessing) && s'.jobs.Keys == y.shared.jobs.Keys
  {
    var id, tenantId, uploadedBy, fileName, actions :| ReachedBy(y, id, tenantId, uploadedBy, fileName, actions);
    AlwaysQueues(Start(id, tenantId, uploadedBy, fileName), actions);
    run :| OcrKey(run) in y.shared.jobs;
    RedeliveredOcrUndoesApproval(y, run, env);
    RunThree(y, StartOcr(run), RunTask(|y.tasks|, env), RunTask(|y.tasks|, env));
  }

  lemma RunThree(y: System, a: Action, b: Action, c: Action)
    ensures Run(y, [a, b, c]) == Next(Next(Next(y, a), b), c)
  {
    assert [a, b, c] == [] + [a] + [b] + [c];
    RunSnoc(y, [], a);
    RunSnoc(y, [] + [a], b);
    RunSnoc(y, [] + [a] + [b], c);
  }

  /** A rejected document always has a rejected row, and every such row gives a reason. */
  lemma RejectionsGiveReasons(y: System)
    requires Reachable(y) && y.shared.tables.row.status == Rejected
    ensures exists r <- y.shared.tables.log :: r.event == RejectedEvent
    ensures forall r <- y.shared.tables.log :: r.event == RejectedEvent ==>
              r.payload.ReasonPayload? && r.payload.reason != ""
  {
    ReachableIsOk(y);
    assert y.shared.tables.log[LastRejection(y.shared.tables.log)] in y.shared.tables.log;
  }

  // ----- faults and queue adds are what they say

  /** A step that is lost before it takes effect leaves the rows alone, one that is lost after leaves the rows
      that it would leave undisturbed. */
  lemma FaultsAreReal(s: Shared, t: Task, env: Env)
    ensures Do(s, MoveOf(s, t, env.(fault := LostBefore)).op).tables == s.tables
    ensures Do(s, MoveOf(s, t, env.(fault := LostAfter)).op).tables
            == Do(s, MoveOf(s, t, env.(fault := NoFault)).op).tables
  {
    match t {
      case Ext(_, _, pc, _) => if BeforePublish(pc) { EarlyFaults(s, t, env); } else { LateFaults(s, t, env); }
      case Hook(_, _, _) => HookFaults(s, t, env);
      case _ =>
    }
  }

  lemma EarlyFaults(s: Shared, t: Task, env: Env)
    requires t.Ext? && BeforePublish(t.ext)
    ensures Do(s, ExtMove(s, t, env.(fault := LostBefore)).op).tables == s.tables
    ensures Do(s, ExtMove(s, t, env.(fault := LostAfter)).op).tables
            == Do(s, ExtMove(s, t, env.(fault := NoFault)).op).tables
  {
  }

  lemma LateFaults(s: Shared, t: Task, env: Env)
    requires t.Ext? && !BeforePublish(t.ext)
    ensures Do(s, ExtMove(s, t, env.(fault := LostBefore)).op).tables == s.tables
    ensures Do(s, ExtMove(s, t, env.(fault := LostAfter)).op).tables
            == Do(s, ExtMove(s, t, env.(fault := NoFault)).op).tables
  {
  }

  lemma HookFaults(s: Shared, t: Task, env: Env)
    requires t.Hook?
    ensures Do(s, HookMove(s, t, env.(fault := LostBefore)).op).tables == s.tables
    ensures Do(s, HookMove(s, t, env.(fault := LostAfter)).op).tables
            == Do(s, HookMove(s, t, env.(fault := NoFault)).op).tables
  {
  }

  /** A pipeline job the queue knows never starts over: its executions and provider calls only grow. */
  ghost predicate JobsGoOn(s: Shared, s': Shared) {
    forall k <- s.jobs ::
      && k in s'.jobs && s'.jobs[k].tenantId == s.jobs[k].tenantId
      && s'.jobs[k].executions >= s.jobs[k].executions
      && s'.jobs[k].classifyCalls >= s.jobs[k].classifyCalls && s'.jobs[k].extractCalls >= s.jobs[k].extractCalls
  }

  lemma DoJobsGoOn(s: Shared, op: Op)
    ensures JobsGoOn(s, Do(s, op))
  {
  }

  lemma JobsNeverStartOver(y: System, a: Action)
    ensures JobsGoOn(y.shared, Next(y, a).shared)
  {
    if a.RunTask? {
      if a.i < |y.tasks| {
        var m := MoveOf(y.shared, y.tasks[a.i], a.env);
        DoJobsGoOn(y.shared, m.op);
        EndJobsGoOn(Do(y.shared, m.op), y.tasks[a.i], m.ending);
      }
    } else if IsReviewer(a) {
      NextReviewer(y, a);
      assert Decided(y.shared, a).jobs == y.shared.jobs;
    }
  }

  lemma EndJobsGoOn(s: Shared, t: Task, ending: Ending)
    ensures JobsGoOn(s, End(s, t, ending))
  {
  }
}
