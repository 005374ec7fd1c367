/** Reviewer requests on one document: whose succeed, what they leave behind, and what follows them. */
module Reviewers {
  import opened Wrappers
  import opened Schema
  import opened Transactions
  import opened Pipeline
  import opened AnyFault

  /** Another tenant's reviewer does not find the document and changes nothing at all. */
  lemma OthersFindNothing(y: System, a: Action)
    requires IsReviewer(a) && a.tenantId != y.shared.tables.row.tenantId
    ensures ReviewerResult(y.shared.tables, a).outcome == NotFound && Next(y, a) == y
  {
  }

  /** The owner's approval of a document pending review takes effect. */
  lemma OwnerApproves(y: System, actor: string)
    requires y.shared.tables.row.status == PendingReview
    ensures var t := y.shared.tables; var y' := Next(y, ApproveAction(t.row.tenantId, actor));
      && y'.shared.tables
         == Tables(t.row.(status := Approved), t.extraction,
                   t.log + [AuditRow(Some(actor), ApprovedEvent, Some(PendingReview), Some(Approved), NoPayload)])
      && y'.tasks == y.tasks + [Notify(NotifyRead)]
  {
    ApproveMeans(y.shared.tables, actor);
  }

  /** So does the owner's rejection, with a reason of one to a thousand plain characters. */
  lemma OwnerRejects(y: System, actor: string, reason: string)
    requires y.shared.tables.row.status == PendingReview && 1 <= |reason| <= 1000 && '\0' !in reason
    ensures var t := y.shared.tables; var y' := Next(y, RejectAction(t.row.tenantId, actor, reason));
      && y'.shared.tables
         == Tables(t.row.(status := Rejected), t.extraction,
                   t.log + [AuditRow(Some(actor), RejectedEvent, Some(PendingReview), Some(Rejected),
                       ReasonPayload(reason))])
      && y'.tasks == y.tasks + [Notify(NotifyRead)]
  {
    RejectMeans(y.shared.tables, actor, reason);
  }

  /** An edit by the owner does to the rows what EditedColumns says, and nothing to anything else. */
  lemma OwnerEdits(y: System, actor: string, changes: ExtractionEdit)
    ensures Next(y, EditAction(y.shared.tables.row.tenantId, actor, changes))
            == System(y.shared.(tables := Edit(y.shared.tables, actor, changes).tables), y.tasks)
  {
  }

  /** After an approval or rejection, the request tells the tenant if it has an address: undisturbed, it adds
      exactly one waiting webhook job of that tenant, or none. */
  lemma NotifiesIfConfigured(y: System, i: nat, read: Env, add: Env)
    requires i < |y.tasks| && y.tasks[i] == Notify(NotifyRead) && read.fault == NoFault && add.fault == NoFault
    ensures var s' := Next(Next(y, RunTask(i, read)), RunTask(i, add)).shared;
            s' == y.shared.(webhooks := y.shared.webhooks
                                        + if read.tenant.Some? && read.tenant.value.webhookUrl
                                          then [WebhookJob(y.shared.tables.row.tenantId, 0, Waiting)] else [])
  {
  }

  /** The owner's reprocessing of a failed or rejected document empties it, and undisturbed the request then
      adds the OCR job of its run. */
  lemma OwnerReprocesses(y: System, actor: string, run: string, env: Env)
    requires y.shared.tables.row.status in {Failed, Rejected} && OcrKey(run) !in y.shared.jobs && env.fault == NoFault
    ensures var t := y.shared.tables;
            var y1 := Next(y, ReprocessAction(t.row.tenantId, actor, run));
            var y2 := Next(y1, RunTask(|y.tasks|, env));
      && y1.shared.tables
         == Tables(t.row.(status := Uploaded, rawText := None, docType := None), None,
                   t.log + [AuditRow(Some(actor), ReprocessedEvent, Some(t.row.status), Some(Uploaded), NoPayload)])
      && y1.shared.jobs == y.shared.jobs && y1.tasks[..|y.tasks|] == y.tasks
      && y2.shared.tables == y1.shared.tables
      && y2.shared.jobs == y.shared.jobs[OcrKey(run) := Job(t.row.tenantId, 0, Waiting, 0, 0)]
  {
    ReprocessMeans(y.shared.tables, actor);
  }
}
