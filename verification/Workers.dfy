/** The workers and the upload request as the source writes them: straight-line code with a try block. Every
    await uses the next element of an environment stream. Run without interference, each is proved to be an exact
    run of its task in Pipeline; what happens when others move in between is the subject of the theorems there. */
module Workers {
  import opened Wrappers
  import opened DecisionEngine
  import opened Schema
  import opened Transactions
  import opened Pipeline
  import Providers

  // ----- traces of a step function that is told the number of each step

  ghost predicate StepAt<S(!new)>(trace: seq<S>, step: (S, nat) -> S, from: nat, k: nat)
    requires k + 1 < |trace|
  {
    trace[k + 1] == step(trace[k], from + k)
  }

  ghost predicate Trace<S(!new)>(trace: seq<S>, start: S, step: (S, nat) -> S, from: nat) {
    trace != [] && trace[0] == start && forall k :: 0 <= k < |trace| - 1 ==> StepAt(trace, step, from, k)
  }

  ghost predicate Leads<S(!new)>(start: S, end: S, step: (S, nat) -> S, from: nat, n: nat) {
    exists trace :: Trace(trace, start, step, from) && |trace| == n + 1 && trace[n] == end
  }

  lemma LeadsOn<S(!new)>(start: S, mid: S, step: (S, nat) -> S, from: nat, n: nat)
    requires Leads(start, mid, step, from, n)
    ensures Leads(start, step(mid, from + n), step, from, n + 1)
  {
    var trace :| Trace(trace, start, step, from) && |trace| == n + 1 && trace[n] == mid;
    var longer := trace + [step(mid, from + n)];
    forall k | 0 <= k < |longer| - 1 ensures StepAt(longer, step, from, k) {
      if k < n { assert StepAt(trace, step, from, k); }
    }
    assert Trace(longer, start, step, from);
  }

  lemma LeadsThrough<S(!new)>(start: S, mid: S, end: S, step: (S, nat) -> S, from: nat, a: nat, b: nat)
    requires Leads(start, mid, step, from, a) && Leads(mid, end, step, from + a, b)
    ensures Leads(start, end, step, from, a + b)
  {
    var first :| Trace(first, start, step, from) && |first| == a + 1 && first[a] == mid;
    var second :| Trace(second, mid, step, from + a) && |second| == b + 1 && second[b] == end;
    var both := first + second[1..];
    assert forall k :: 0 <= k <= b ==> both[a + k] == second[k];
    forall k | 0 <= k < |both| - 1 ensures StepAt(both, step, from, k) {
      if k < a {
        assert StepAt(first, step, from, k);
      } else {
        assert StepAt(second, step, from + a, k - a);
      }
    }
    assert Trace(both, start, step, from);
  }

  // ----- one task moving alone

  type Point = (Shared, Task)

  function StepOf(envs: nat -> Env): (Point, nat) -> Point {
    (p: Point, k: nat) => var m := MoveOf(p.0, p.1, envs(k)); (Effect(p.0, p.1, m), m.task)
  }

  /** The state and the task are what n steps of one task, with nobody else moving, make of the start, using
      envs(from), envs(from + 1), ... */
  ghost predicate At(now: Shared, task: Task, s: Shared, t: Task, envs: nat -> Env, from: nat, n: nat) {
    Leads((s, t), (now, task), StepOf(envs), from, n)
  }

  lemma AtStart(s: Shared, t: Task, envs: nat -> Env, from: nat)
    ensures At(s, t, s, t, envs, from, 0)
  {
    assert Trace([(s, t)], (s, t), StepOf(envs), from);
  }

  lemma Then(now: Shared, task: Task, s: Shared, t: Task, envs: nat -> Env, from: nat, n: nat)
    requires At(now, task, s, t, envs, from, n)
    ensures var m := MoveOf(now, task, envs(from + n)); At(Effect(now, task, m), m.task, s, t, envs, from, n + 1)
  {
    LeadsOn((s, t), (now, task), StepOf(envs), from, n);
  }

  lemma EndGoesOn(s: Shared, t: Task)
    ensures End(s, t, GoesOn) == s
  {
  }

  /** A step outside every try block: it goes on, or the execution is over and the queue hears of it. */
  lemma ThenOrThrow(
      now: Shared, task: Task, op: Op, next: Task, threw: Task, s: Shared, t: Task, envs: nat -> Env, from: nat, n: nat)
    requires At(now, task, s, t, envs, from, n)
    requires MoveOf(now, task, envs(from + n)) == OrThrow(envs(from + n), op, next, threw)
    ensures envs(from + n).fault == NoFault ==> At(Do(now, op), next, s, t, envs, from, n + 1)
    ensures envs(from + n).fault != NoFault ==>
              At(End(Do(now, Unless(envs(from + n), op)), task, Throws), threw, s, t, envs, from, n + 1)
  {
    Then(now, task, s, t, envs, from, n);
    EndGoesOn(Do(now, op), task);
  }

  lemma Join(now: Shared, task: Task, mid: Shared, midTask: Task, s: Shared, t: Task, envs: nat -> Env, from: nat,
      a: nat, b: nat)
    requires At(mid, midTask, s, t, envs, from, a) && At(now, task, mid, midTask, envs, from + a, b)
    ensures At(now, task, s, t, envs, from, a + b)
  {
    LeadsThrough((s, t), (mid, midTask), (now, task), StepOf(envs), from, a, b);
  }

  /** Everything kept about one document, updated in place. */
  class DocumentState {
    var row: DocumentRow
    var extraction: Option<ExtractionRow>
    var log: seq<AuditRow>
    var deliveries: seq<Delivery>
    var objects: set<string>
    var jobs: map<JobKey, Job>
    var webhooks: seq<WebhookJob>
    var writes: seq<Write>
    var origin: Option<Origin>
    var sent: seq<Sent>

    ghost function State(): Shared reads this {
      Shared(Tables(row, extraction, log), deliveries, objects, jobs, webhooks, writes, origin, sent)
    }

    constructor (id: string, tenantId: string, uploadedBy: string, fileName: string)
      ensures State() == Start(id, tenantId, uploadedBy, fileName).shared
    {
      row := DocumentRow(id, tenantId, uploadedBy, fileName, PLACEHOLDER_KEY, Uploaded, None, None);
      extraction, log, deliveries, objects, jobs, webhooks := None, [], [], {}, map[], [];
      writes, origin, sent := [Write(ByUpload, Uploaded, Uploaded)], None, [];
    }

    method SaveRow(writer: Writer, updated: DocumentRow)
      modifies this`row, this`writes
      ensures row == updated && writes == old(writes) + [Write(writer, old(row.status), updated.status)]
    {
      writes := writes + [Write(writer, row.status, updated.status)];
      row := updated;
    }

    /** One awaited operation. A fault keeps it from happening or loses its answer; either way it throws. */
    method Await(op: Op, env: Env) returns (threw: bool)
      modifies this
      ensures State() == Do(old(State()), Unless(env, op))
      ensures threw == (env.fault != NoFault)
    {
      threw := env.fault != NoFault;
      if env.fault != LostBefore {
        match op {
          case NoOp =>
          case PutObject(key) => objects := objects + {key};
          case SaveKey(key) => row := row.(storageKey := key);
          case SaveStatus(writer, status) => SaveRow(writer, row.(status := status));
          case SaveText(writer, text) => SaveRow(writer, row.(status := Extracted, rawText := Some(text)));
          case SaveUnknown(writer) => SaveRow(writer, row.(status := PendingReview, docType := Some(UnknownType)));
          case SaveType(docType) => row := row.(docType := Some(docType));
          case AppendRow(r) => log := log + [r];
          case InsertRow(e) =>
            if extraction.None? {
              extraction, origin := Some(e), Some(Origin(e, |log|));
            }
          case AddJob(key, tenantId) =>
            if key !in jobs {
              jobs := jobs[key := Job(tenantId, 0, Waiting, 0, 0)];
            }
          case AddWebhook(tenantId) => webhooks := webhooks + [WebhookJob(tenantId, 0, Waiting)];
          case CountCalls(key, classify, extract) =>
            Calls(key, classify, extract);
          case InsertDelivery(tenantId, attempt) => deliveries := deliveries + [Delivery(tenantId, attempt, Pending)];
          case RecordDelivery(i, outcome) =>
            if i < |deliveries| {
              deliveries := deliveries[i := deliveries[i].(status := outcome)];
            }
          case Send(message) => Fetch(message);
        }
      }
    }

    method Calls(key: JobKey, classify: nat, extract: nat)
      modifies this`jobs
      ensures State() == Do(old(State()), CountCalls(key, classify, extract))
    {
      if key in jobs {
        jobs := jobs[key := jobs[key].(classifyCalls := jobs[key].classifyCalls + classify,
                                       extractCalls := jobs[key].extractCalls + extract)];
      }
    }

    method Fetch(message: Sent)
      modifies this`sent
      ensures State() == Do(old(State()), Send(message))
    {
      sent := sent + [message];
    }

    method Finish(key: JobKey, ending: Ending)
      modifies this`jobs
      ensures State() == FinishJob(old(State()), key, ending)
    {
      if ending != GoesOn && key in jobs {
        jobs := jobs[key := jobs[key].(state := AfterExecution(jobs[key].executions, ending))];
      }
    }

    method FinishHook(j: nat, ending: Ending)
      modifies this`webhooks
      ensures State() == FinishWebhook(old(State()), j, ending)
    {
      if ending != GoesOn && j < |webhooks| {
        webhooks := webhooks[j := webhooks[j].(state := AfterExecution(webhooks[j].executions, ending))];
      }
    }
  }

  // ----- uploadNewDocument, after its row was inserted

  method UploadNewDocument(doc: DocumentState, envs: nat -> Env) returns (ok: bool, n: nat)
    modifies doc
    ensures n <= 5
    ensures At(doc.State(), Upload(if ok then UpDone else UpFailed), old(doc.State()), Upload(UpStore), envs, 0, n)
  {
    var caught;
    caught, n := UploadAttempt(doc, envs);
    if caught {
      ghost var now := doc.State();
      var _ := doc.Await(SaveStatus(ByUpload, Failed), envs(n));
      Then(now, Upload(UpFail), old(doc.State()), Upload(UpStore), envs, 0, n);
      n := n + 1;
    }
    ok := !caught;
  }

  /** The try block: store the file, save its key, log, enqueue. */
  method UploadAttempt(doc: DocumentState, envs: nat -> Env) returns (caught: bool, n: nat)
    modifies doc
    ensures n <= 4
    ensures At(doc.State(), Upload(if caught then UpFail else UpDone), old(doc.State()), Upload(UpStore), envs, 0, n)
  {
    ghost var s0, t0 := doc.State(), Upload(UpStore);
    AtStart(s0, t0, envs, 0);
    var row := doc.row;
    var key := FileKey(row.tenantId, row.id, row.fileName);
    Then(s0, t0, s0, t0, envs, 0, 0);
    caught := doc.Await(PutObject(key), envs(0));
    if caught { return caught, 1; }
    Then(doc.State(), Upload(UpSaveKey(key)), s0, t0, envs, 0, 1);
    caught := doc.Await(SaveKey(key), envs(1));
    if caught { return caught, 2; }
    caught, n := UploadHandOver(doc, row, envs, s0, t0);
  }

  method UploadHandOver(doc: DocumentState, row: DocumentRow, envs: nat -> Env, ghost s0: Shared, ghost t0: Task)
    returns (caught: bool, n: nat)
    requires At(doc.State(), Upload(UpLog), s0, t0, envs, 0, 2)
    requires row.uploadedBy == doc.row.uploadedBy && row.fileName == doc.row.fileName
             && row.tenantId == doc.row.tenantId
    modifies doc
    ensures n <= 4
    ensures At(doc.State(), Upload(if caught then UpFail else UpDone), s0, t0, envs, 0, n)
  {
    Then(doc.State(), Upload(UpLog), s0, t0, envs, 0, 2);
    caught := doc.Await(AppendRow(AuditRow(Some(row.uploadedBy), UploadedEvent, None, Some(Uploaded),
        FilePayload(row.fileName))), envs(2));
    if caught { return caught, 3; }
    Then(doc.State(), Upload(UpEnqueue), s0, t0, envs, 0, 3);
    caught := doc.Await(AddJob(OcrKey("initial"), row.tenantId), envs(3));
    return caught, 4;
  }

  // ----- the OCR job

  method ProcessOcr(doc: DocumentState, run: string, tenantId: string, envs: nat -> Env) returns (threw: bool, n: nat)
    modifies doc
    ensures n <= 7
    ensures At(doc.State(), Ocr(run, tenantId, if threw then OcrThrew else OcrReturned),
               old(doc.State()), Ocr(run, tenantId, OcrRead), envs, 0, n)
  {
    ghost var s0, t0 := doc.State(), Ocr(run, tenantId, OcrRead);
    var ended, document;
    ended, threw, document, n := OcrBegin(doc, run, tenantId, envs);
    if ended {
      return;
    }
    ghost var s2, t2 := doc.State(), Ocr(run, tenantId, OcrRecognize(document.storageKey, document.tenantId));
    var caught, k := OcrAttempt(doc, run, tenantId, document, envs);
    Join(doc.State(), Ocr(run, tenantId, if caught then OcrFail else OcrReturned), s2, t2, s0, t0, envs, 0, 2, k);
    n := 2 + k;
    if caught {
      OcrCatch(doc, run, tenantId, envs, n, s0, t0);
      n := n + 1;
    }
    threw := caught;
  }

  /** Before the try block: find the document and mark it. */
  method OcrBegin(doc: DocumentState, run: string, tenantId: string, envs: nat -> Env)
    returns (ended: bool, threw: bool, document: DocumentRow, n: nat)
    modifies doc
    ensures n <= 2 && (!ended ==> n == 2)
    ensures At(doc.State(),
               Ocr(run, tenantId,
                   if !ended then OcrRecognize(document.storageKey, document.tenantId)
                   else if threw then OcrThrew
                   else OcrReturned),
               old(doc.State()), Ocr(run, tenantId, OcrRead), envs, 0, n)
  {
    ghost var s0, t0 := doc.State(), Ocr(run, tenantId, OcrRead);
    AtStart(s0, t0, envs, 0);
    Then(s0, t0, s0, t0, envs, 0, 0);
    document := doc.row;
    if envs(0).fault != NoFault {
      doc.Finish(OcrKey(run), Throws);
      return true, true, document, 1;
    }
    if tenantId != document.tenantId {
      doc.Finish(OcrKey(run), Returns);
      return true, false, document, 1;
    }
    Then(s0, Ocr(run, tenantId, OcrMark(document.storageKey, document.tenantId)), s0, t0, envs, 0, 1);
    threw := doc.Await(SaveStatus(ByOcr(run), OcrProcessing), envs(1));
    if threw {
      doc.Finish(OcrKey(run), Throws);
    }
    return threw, threw, document, 2;
  }

  /** The catch block: mark the document failed and rethrow. */
  method OcrCatch(
      doc: DocumentState, run: string, tenantId: string, envs: nat -> Env, n: nat, ghost s0: Shared, ghost t0: Task)
    requires At(doc.State(), Ocr(run, tenantId, OcrFail), s0, t0, envs, 0, n)
    modifies doc
    ensures At(doc.State(), Ocr(run, tenantId, OcrThrew), s0, t0, envs, 0, n + 1)
  {
    Then(doc.State(), Ocr(run, tenantId, OcrFail), s0, t0, envs, 0, n);
    var _ := doc.Await(SaveStatus(ByOcr(run), Failed), envs(n));
    doc.Finish(OcrKey(run), Throws);
  }

  /** The try block: download and recognise, store the text, log, hand over to extraction. */
  method OcrAttempt(doc: DocumentState, run: string, tenantId: string, document: DocumentRow, envs: nat -> Env)
    returns (caught: bool, k: nat)
    modifies doc
    ensures k <= 4
    ensures At(doc.State(), Ocr(run, tenantId, if caught then OcrFail else OcrReturned), old(doc.State()),
               Ocr(run, tenantId, OcrRecognize(document.storageKey, document.tenantId)), envs, 2, k)
  {
    var key, owner := document.storageKey, document.tenantId;
    ghost var s0, t0 := doc.State(), Ocr(run, tenantId, OcrRecognize(key, owner));
    AtStart(s0, t0, envs, 2);
    Then(s0, t0, s0, t0, envs, 2, 0);
    if envs(2).fault != NoFault || key !in doc.objects {
      return true, 1;
    }
    var rawText := envs(2).text;
    Then(doc.State(), Ocr(run, tenantId, OcrStore(key, owner, rawText)), s0, t0, envs, 2, 1);
    if !IsPlain(rawText) { return true, 2; }
    caught := doc.Await(SaveText(ByOcr(run), rawText), envs(3));
    if caught { return true, 2; }
    caught, k := OcrPassOn(doc, run, tenantId, key, owner, rawText, envs, s0, t0);
  }

  method OcrPassOn(doc: DocumentState, run: string, tenantId: string, key: string, owner: string, rawText: string,
      envs: nat -> Env, ghost s0: Shared, ghost t0: Task)
    returns (caught: bool, k: nat)
    requires At(doc.State(), Ocr(run, tenantId, OcrLog(key, owner, rawText)), s0, t0, envs, 2, 2)
    modifies doc
    ensures k <= 4
    ensures At(doc.State(), Ocr(run, tenantId, if caught then OcrFail else OcrReturned), s0, t0, envs, 2, k)
  {
    Then(doc.State(), Ocr(run, tenantId, OcrLog(key, owner, rawText)), s0, t0, envs, 2, 2);
    caught := doc.Await(AppendRow(WorkerRow(OcrCompleteEvent, OcrProcessing, Extracted, TextPayload(|rawText|))),
        envs(4));
    if caught { return true, 3; }
    Then(doc.State(), Ocr(run, tenantId, OcrHandOver(key, owner)), s0, t0, envs, 2, 3);
    caught := doc.Await(AddJob(ExtractKey(run), owner), envs(5));
    if caught { return true, 4; }
    doc.Finish(OcrKey(run), Returns);
    return false, 4;
  }

  // ----- the extraction job

  method ProcessExtraction(doc: DocumentState, run: string, tenantId: string, envs: nat -> Env)
    returns (threw: bool, n: nat, ghost owes: bool)
    modifies doc
    ensures n <= 13
    ensures At(doc.State(), Ext(run, tenantId, if threw then ExtThrew else ExtReturned, owes),
               old(doc.State()), Ext(run, tenantId, ExtRead, false), envs, 0, n)
  {
    ghost var s0, t0 := doc.State(), Ext(run, tenantId, ExtRead, false);
    var ended, tenant;
    ended, threw, tenant, n := ExtBegin(doc, run, tenantId, envs);
    owes := false;
    if ended {
      return;
    }
    threw, n, owes := ExtTry(doc, run, tenantId, tenant, envs, s0, t0);
  }

  /** The try block and its catch block. */
  method ExtTry(doc: DocumentState, run: string, tenantId: string, tenant: Option<TenantRow>, envs: nat -> Env,
      ghost s0: Shared, ghost t0: Task)
    returns (threw: bool, n: nat, ghost owes: bool)
    requires At(doc.State(), Ext(run, tenantId, ExtClassify(tenant), false), s0, t0, envs, 0, 3)
    modifies doc
    ensures n <= 13
    ensures At(doc.State(), Ext(run, tenantId, if threw then ExtThrew else ExtReturned, owes), s0, t0, envs, 0, n)
  {
    threw, n, owes := ExtAttemptNext(doc, run, tenantId, tenant, envs, s0, t0);
    if threw {
      var c := ExtCatch(doc, run, tenantId, envs, n, s0, t0, owes);
      n := n + c;
    }
  }

  method ExtAttemptNext(doc: DocumentState, run: string, tenantId: string, tenant: Option<TenantRow>, envs: nat -> Env,
      ghost s0: Shared, ghost t0: Task)
    returns (caught: bool, n: nat, ghost owes: bool)
    requires At(doc.State(), Ext(run, tenantId, ExtClassify(tenant), false), s0, t0, envs, 0, 3)
    modifies doc
    ensures n <= 11
    ensures At(doc.State(), Ext(run, tenantId, if caught then ExtFail else ExtReturned, owes), s0, t0, envs, 0, n)
  {
    ghost var s1, t1 := doc.State(), Ext(run, tenantId, ExtClassify(tenant), false);
    var k;
    caught, k, owes := ExtAttempt(doc, run, tenantId, tenant, envs);
    Join(doc.State(), Ext(run, tenantId, if caught then ExtFail else ExtReturned, owes), s1, t1, s0, t0, envs, 0, 3, k);
    n := 3 + k;
  }

  /** Before the try block: find the document, skip a duplicate, fail an empty text, read the tenant, mark. */
  method ExtBegin(doc: DocumentState, run: string, tenantId: string, envs: nat -> Env)
    returns (ended: bool, threw: bool, tenant: Option<TenantRow>, n: nat)
    modifies doc
    ensures n <= 3 && (!ended ==> n == 3)
    ensures At(doc.State(),
            Ext(run, tenantId, if !ended then ExtClassify(tenant) else if threw then ExtThrew else ExtReturned, false),
               old(doc.State()), Ext(run, tenantId, ExtRead, false), envs, 0, n)
  {
    ghost var s0, t0 := doc.State(), Ext(run, tenantId, ExtRead, false);
    AtStart(s0, t0, envs, 0);
    Then(s0, t0, s0, t0, envs, 0, 0);
    tenant := None;
    var document := doc.row;
    if envs(0).fault != NoFault {
      doc.Finish(ExtractKey(run), Throws);
      return true, true, tenant, 1;
    }
    if tenantId != document.tenantId || AlreadyProcessed(Tables(document, doc.extraction, doc.log)) {
      doc.Finish(ExtractKey(run), Returns);
      return true, false, tenant, 1;
    }
    if IsBlank(document.rawText) {
      threw, n := ExtEmptyText(doc, run, tenantId, document, envs, s0, t0);
      return true, threw, tenant, n;
    }
    tenant := envs(1).tenant;
    threw, n := ExtMarked(doc, run, tenantId, tenant, envs, s0, t0);
    return threw, threw, tenant, n;
  }

  method ExtEmptyText(doc: DocumentState, run: string, tenantId: string, document: DocumentRow, envs: nat -> Env,
      ghost s0: Shared, ghost t0: Task)
    returns (threw: bool, n: nat)
    requires At(doc.State(), Ext(run, tenantId, ExtEmpty(document.status), false), s0, t0, envs, 0, 1)
    modifies doc
    ensures n <= 3
    ensures At(doc.State(), Ext(run, tenantId, if threw then ExtThrew else ExtReturned, false), s0, t0, envs, 0, n)
  {
    Then(doc.State(), Ext(run, tenantId, ExtEmpty(document.status), false), s0, t0, envs, 0, 1);
    threw := doc.Await(SaveStatus(ByExtraction(run), Failed), envs(1));
    if threw {
      doc.Finish(ExtractKey(run), Throws);
      return true, 2;
    }
    threw := ExtLogEmptyText(doc, run, tenantId, document, envs, s0, t0);
    return threw, 3;
  }

  method ExtLogEmptyText(doc: DocumentState, run: string, tenantId: string, document: DocumentRow, envs: nat -> Env,
      ghost s0: Shared, ghost t0: Task)
    returns (threw: bool)
    requires At(doc.State(), Ext(run, tenantId, ExtLogEmpty(document.status), false), s0, t0, envs, 0, 2)
    modifies doc
    ensures At(doc.State(), Ext(run, tenantId, if threw then ExtThrew else ExtReturned, false), s0, t0, envs, 0, 3)
  {
    Then(doc.State(), Ext(run, tenantId, ExtLogEmpty(document.status), false), s0, t0, envs, 0, 2);
    threw := doc.Await(AppendRow(WorkerRow(ExtractedEvent, document.status, Failed, ErrorPayload)), envs(2));
    doc.Finish(ExtractKey(run), if threw then Throws else Returns);
  }

  method ExtMarked(doc: DocumentState, run: string, tenantId: string, tenant: Option<TenantRow>, envs: nat -> Env,
      ghost s0: Shared, ghost t0: Task)
    returns (threw: bool, n: nat)
    requires At(doc.State(), Ext(run, tenantId, ExtTenant, false), s0, t0, envs, 0, 1) && tenant == envs(1).tenant
    modifies doc
    ensures n <= 3 && (!threw ==> n == 3)
    ensures At(doc.State(), Ext(run, tenantId, if threw then ExtThrew else ExtClassify(tenant), false), s0, t0, envs, 0,
            n)
  {
    Then(doc.State(), Ext(run, tenantId, ExtTenant, false), s0, t0, envs, 0, 1);
    if envs(1).fault != NoFault {
      doc.Finish(ExtractKey(run), Throws);
      return true, 2;
    }
    Then(doc.State(), Ext(run, tenantId, ExtMark(tenant), false), s0, t0, envs, 0, 2);
    threw := doc.Await(SaveStatus(ByExtraction(run), Extracting), envs(2));
    if threw {
      doc.Finish(ExtractKey(run), Throws);
    }
    return threw, 3;
  }

  /** The catch block: mark the document failed, log, rethrow. */
  method ExtCatch(doc: DocumentState, run: string, tenantId: string, envs: nat -> Env, n: nat, ghost s0: Shared,
      ghost t0: Task, ghost owes: bool)
    returns (c: nat)
    requires At(doc.State(), Ext(run, tenantId, ExtFail, owes), s0, t0, envs, 0, n)
    modifies doc
    ensures c <= 2
    ensures At(doc.State(), Ext(run, tenantId, ExtThrew, owes), s0, t0, envs, 0, n + c)
  {
    FailMoves(doc.State(), Ext(run, tenantId, ExtFail, owes), envs(n));
    ThenOrThrow(doc.State(), Ext(run, tenantId, ExtFail, owes), SaveStatus(ByExtraction(run), Failed),
                Ext(run, tenantId, ExtLogFail, owes), Ext(run, tenantId, ExtThrew, owes), s0, t0, envs, 0, n);
    var threw := doc.Await(SaveStatus(ByExtraction(run), Failed), envs(n));
    if threw {
      doc.Finish(ExtractKey(run), Throws);
      return 1;
    }
    ExtLogFailure(doc, run, tenantId, envs, n + 1, s0, t0, owes);
    return 2;
  }

  lemma FailMoves(s: Shared, t: Task, env: Env)
    requires t.Ext? && t.ext == ExtFail
    ensures MoveOf(s, t, env)
            == OrThrow(env, SaveStatus(ByExtraction(t.run), Failed), t.(ext := ExtLogFail), t.(ext := ExtThrew))
  {
  }

  method ExtLogFailure(doc: DocumentState, run: string, tenantId: string, envs: nat -> Env, n: nat, ghost s0: Shared,
      ghost t0: Task, ghost owes: bool)
    requires At(doc.State(), Ext(run, tenantId, ExtLogFail, owes), s0, t0, envs, 0, n)
    modifies doc
    ensures At(doc.State(), Ext(run, tenantId, ExtThrew, owes), s0, t0, envs, 0, n + 1)
  {
    Then(doc.State(), Ext(run, tenantId, ExtLogFail, owes), s0, t0, envs, 0, n);
    var _ := doc.Await(AppendRow(WorkerRow(ExtractedEvent, Extracting, Failed, ErrorPayload)), envs(n));
    doc.Finish(ExtractKey(run), Throws);
  }

  /** The try block: classify, route unknown types to review, otherwise extract, store and publish. */
  method ExtAttempt(doc: DocumentState, run: string, tenantId: string, tenant: Option<TenantRow>, envs: nat -> Env)
    returns (caught: bool, k: nat, ghost owes: bool)
    modifies doc
    ensures k <= 8
    ensures At(doc.State(), Ext(run, tenantId, if caught then ExtFail else ExtReturned, owes), old(doc.State()),
               Ext(run, tenantId, ExtClassify(tenant), false), envs, 3, k)
  {
    ghost var s0, t0 := doc.State(), Ext(run, tenantId, ExtClassify(tenant), false);
    AtStart(s0, t0, envs, 3);
    Then(s0, t0, s0, t0, envs, 3, 0);
    owes := false;
    var answer := Providers.AskWithRetries(envs(3).config, Invoice, envs(3).classify);
    doc.Calls(ExtractKey(run), answer.calls, 0);
    if answer.result.None? {
      return true, 1, false;
    }
    if answer.result.value == UnknownType {
      caught, k := ExtUnknownType(doc, run, tenantId, envs, s0, t0);
      return caught, k, false;
    }
    caught, k, owes := ExtTyped(doc, run, tenantId, tenant, answer.result.value, envs, s0, t0);
  }

  method ExtTyped(doc: DocumentState, run: string, tenantId: string, tenant: Option<TenantRow>, docType: DocType,
      envs: nat -> Env, ghost s0: Shared, ghost t0: Task)
    returns (caught: bool, k: nat, ghost owes: bool)
    requires At(doc.State(), Ext(run, tenantId, ExtType(tenant, docType), false), s0, t0, envs, 3, 1)
    modifies doc
    ensures k <= 8
    ensures At(doc.State(), Ext(run, tenantId, if caught then ExtFail else ExtReturned, owes), s0, t0, envs, 3, k)
  {
    Then(doc.State(), Ext(run, tenantId, ExtType(tenant, docType), false), s0, t0, envs, 3, 1);
    caught := doc.Await(SaveType(docType), envs(4));
    if caught {
      return true, 2, false;
    }
    caught, k, owes := ExtExtract(doc, run, tenantId, tenant, envs, s0, t0);
  }

  method ExtUnknownType(
      doc: DocumentState, run: string, tenantId: string, envs: nat -> Env, ghost s0: Shared, ghost t0: Task)
    returns (caught: bool, k: nat)
    requires At(doc.State(), Ext(run, tenantId, ExtUnknown, false), s0, t0, envs, 3, 1)
    modifies doc
    ensures k <= 3
    ensures At(doc.State(), Ext(run, tenantId, if caught then ExtFail else ExtReturned, false), s0, t0, envs, 3, k)
  {
    Then(doc.State(), Ext(run, tenantId, ExtUnknown, false), s0, t0, envs, 3, 1);
    caught := doc.Await(SaveUnknown(ByExtraction(run)), envs(4));
    if caught { return true, 2; }
    caught := ExtLogUnknownType(doc, run, tenantId, envs, s0, t0);
    return caught, 3;
  }

  method ExtLogUnknownType(
      doc: DocumentState, run: string, tenantId: string, envs: nat -> Env, ghost s0: Shared, ghost t0: Task)
    returns (caught: bool)
    requires At(doc.State(), Ext(run, tenantId, ExtLogUnknown, false), s0, t0, envs, 3, 2)
    modifies doc
    ensures At(doc.State(), Ext(run, tenantId, if caught then ExtFail else ExtReturned, false), s0, t0, envs, 3, 3)
  {
    Then(doc.State(), Ext(run, tenantId, ExtLogUnknown, false), s0, t0, envs, 3, 2);
    caught := doc.Await(AppendRow(WorkerRow(SentToReviewEvent, Extracting, PendingReview, UnknownTypePayload)),
        envs(5));
    if !caught { doc.Finish(ExtractKey(run), Returns); }
  }

  method ExtExtract(doc: DocumentState, run: string, tenantId: string, tenant: Option<TenantRow>, envs: nat -> Env,
      ghost s0: Shared, ghost t0: Task)
    returns (caught: bool, k: nat, ghost owes: bool)
    requires At(doc.State(), Ext(run, tenantId, ExtCall(tenant), false), s0, t0, envs, 3, 2)
    modifies doc
    ensures k <= 8
    ensures At(doc.State(), Ext(run, tenantId, if caught then ExtFail else ExtReturned, owes), s0, t0, envs, 3, k)
  {
    Then(doc.State(), Ext(run, tenantId, ExtCall(tenant), false), s0, t0, envs, 3, 2);
    var answer := Providers.AskWithRetries(envs(5).config, envs(5).mockInvoice, envs(5).extract);
    doc.Calls(ExtractKey(run), 0, answer.calls);
    if answer.result.None? {
      return true, 3, false;
    }
    caught, k, owes := ExtStore(doc, run, tenantId, tenant, answer.result.value, envs, s0, t0);
  }

  method ExtStore(doc: DocumentState, run: string, tenantId: string, tenant: Option<TenantRow>,
      invoice: InvoiceExtraction, envs: nat -> Env, ghost s0: Shared, ghost t0: Task)
    returns (caught: bool, k: nat, ghost owes: bool)
    requires At(doc.State(), Ext(run, tenantId, ExtInsert(tenant, invoice), false), s0, t0, envs, 3, 3)
    modifies doc
    ensures k <= 8
    ensures At(doc.State(), Ext(run, tenantId, if caught then ExtFail else ExtReturned, owes), s0, t0, envs, 3, k)
  {
    Then(doc.State(), Ext(run, tenantId, ExtInsert(tenant, invoice), false), s0, t0, envs, 3, 3);
    if !Storable(invoice, envs(6).isDate) {
      return true, 4, false;
    }
    caught := doc.Await(InsertRow(Persist(invoice)), envs(6));
    if caught {
      return true, 4, false;
    }
    var verdict := EvaluateExtraction(invoice, Threshold(tenant));
    caught, k, owes := ExtDecide(doc, run, tenantId, tenant, invoice, verdict, envs, s0, t0);
  }

  /** Publish the verdict, write both audit rows, notify if it was an approval. */
  method ExtDecide(
      doc: DocumentState, run: string, tenantId: string, tenant: Option<TenantRow>, invoice: InvoiceExtraction,
    verdict: DecisionResult, envs: nat -> Env, ghost s0: Shared, ghost t0: Task)
    returns (caught: bool, k: nat, ghost owes: bool)
    requires At(doc.State(), Ext(run, tenantId, ExtPublish(tenant, invoice, verdict), false), s0, t0, envs, 3, 4)
    modifies doc
    ensures k <= 8
    ensures At(doc.State(), Ext(run, tenantId, if caught then ExtFail else ExtReturned, owes), s0, t0, envs, 3, k)
  {
    Then(doc.State(), Ext(run, tenantId, ExtPublish(tenant, invoice, verdict), false), s0, t0, envs, 3, 4);
    caught := doc.Await(SaveStatus(ByExtraction(run), PublishedStatus(verdict)), envs(7));
    owes := verdict.decision == AutoApprove && envs(7).fault != LostBefore;
    if caught { return true, 5, owes; }
    caught, k, owes := ExtLogVerdict(doc, run, tenantId, tenant, invoice, verdict, envs, s0, t0, owes);
  }

  method ExtLogVerdict(
      doc: DocumentState, run: string, tenantId: string, tenant: Option<TenantRow>, invoice: InvoiceExtraction,
    verdict: DecisionResult, envs: nat -> Env, ghost s0: Shared, ghost t0: Task, ghost owed: bool)
    returns (caught: bool, k: nat, ghost owes: bool)
    requires At(doc.State(), Ext(run, tenantId, ExtLog(tenant, invoice, verdict), owed), s0, t0, envs, 3, 5)
    modifies doc
    ensures k <= 8
    ensures At(doc.State(), Ext(run, tenantId, if caught then ExtFail else ExtReturned, owes), s0, t0, envs, 3, k)
  {
    owes := owed;
    Then(doc.State(), Ext(run, tenantId, ExtLog(tenant, invoice, verdict), owes), s0, t0, envs, 3, 5);
    caught := doc.Await(AppendRow(WorkerRow(ExtractedEvent, Extracting, PublishedStatus(verdict),
        ScorePayload(verdict.minConfidence))), envs(8));
    if caught { return true, 6, owes; }
    caught, k, owes := ExtAnnounce(doc, run, tenantId, tenant, invoice, verdict, envs, s0, t0, owes);
  }

  method ExtAnnounce(
      doc: DocumentState, run: string, tenantId: string, tenant: Option<TenantRow>, invoice: InvoiceExtraction,
    verdict: DecisionResult, envs: nat -> Env, ghost s0: Shared, ghost t0: Task, ghost owed: bool)
    returns (caught: bool, k: nat, ghost owes: bool)
    requires At(doc.State(), Ext(run, tenantId, ExtLogDecision(tenant, invoice, verdict), owed), s0, t0, envs, 3, 6)
    modifies doc
    ensures k <= 8
    ensures At(doc.State(), Ext(run, tenantId, if caught then ExtFail else ExtReturned, owes), s0, t0, envs, 3, k)
  {
    ghost var now, task := doc.State(), Ext(run, tenantId, ExtLogDecision(tenant, invoice, verdict), owed);
    DecisionMoves(now, task, envs(9));
    Then(now, task, s0, t0, envs, 3, 6);
    owes := owed && envs(9).fault == LostBefore;
    caught := doc.Await(AppendRow(DecisionRow(tenant, verdict)), envs(9));
    if caught { return true, 7, owes; }
    if verdict.decision == AutoApprove && HasUrl(tenant) {
      caught := ExtNotifyOwner(doc, run, tenantId, envs, s0, t0, owes);
      return caught, 8, owes;
    }
    doc.Finish(ExtractKey(run), Returns);
    return false, 7, owes;
  }

  lemma NotifyMoves(s: Shared, t: Task, env: Env)
    requires t.Ext? && t.ext == ExtNotify
    ensures MoveOf(s, t, env) == ReturnOrCatch(env, AddWebhook(t.tenantId), t.(ext := ExtReturned), t.(ext := ExtFail))
  {
  }

  lemma DecisionMoves(s: Shared, t: Task, env: Env)
    requires t.Ext? && t.ext.ExtLogDecision?
    ensures var paid := t.owes && env.fault == LostBefore;
            var row := AppendRow(DecisionRow(t.ext.tenant, t.ext.verdict));
            MoveOf(s, t, env)
            == if t.ext.verdict.decision == AutoApprove && HasUrl(t.ext.tenant)
               then OrCatch(env, row, t.(ext := ExtNotify, owes := paid), t.(ext := ExtFail, owes := paid))
               else ReturnOrCatch(env, row, t.(ext := ExtReturned, owes := paid), t.(ext := ExtFail, owes := paid))
  {
  }

  method ExtNotifyOwner(doc: DocumentState, run: string, tenantId: string, envs: nat -> Env, ghost s0: Shared,
      ghost t0: Task, ghost owes: bool)
    returns (caught: bool)
    requires At(doc.State(), Ext(run, tenantId, ExtNotify, owes), s0, t0, envs, 3, 7)
    modifies doc
    ensures At(doc.State(), Ext(run, tenantId, if caught then ExtFail else ExtReturned, owes), s0, t0, envs, 3, 8)
  {
    ghost var now, task := doc.State(), Ext(run, tenantId, ExtNotify, owes);
    NotifyMoves(now, task, envs(10));
    Then(now, task, s0, t0, envs, 3, 7);
    caught := doc.Await(AddWebhook(tenantId), envs(10));
    if !caught { doc.Finish(ExtractKey(run), Returns); }
  }

  // ----- the webhook job

  method ProcessWebhookJob(doc: DocumentState, job: nat, tenantId: string, envs: nat -> Env)
    returns (end: HookPc, n: nat)
    modifies doc
    ensures n <= 7
    ensures end == HookSkipped || end == HookSucceeded || end == HookDeadLettered || end == HookThrew
    ensures At(doc.State(), Hook(job, tenantId, end), old(doc.State()), Hook(job, tenantId, HookRead), envs, 0, n)
  {
    ghost var s0, t0 := doc.State(), Hook(job, tenantId, HookRead);
    var seen;
    end, seen := HookObserve(doc, job, tenantId, envs);
    if end != HookCount(seen) {
      return end, 1;
    }
    var message, attempt;
    end, message, attempt, n := HookPrepare(doc, job, tenantId, seen, envs, s0, t0);
    if end == HookThrew {
      return;
    }
    end, n := HookDeliver(doc, job, tenantId, message, attempt, envs, n, s0, t0);
  }

  method HookObserve(doc: DocumentState, job: nat, tenantId: string, envs: nat -> Env)
    returns (end: HookPc, seen: Observed)
    modifies doc
    ensures end == HookSkipped || end == HookThrew || end == HookCount(seen)
    ensures At(doc.State(), Hook(job, tenantId, end), old(doc.State()), Hook(job, tenantId, HookRead), envs, 0, 1)
  {
    ghost var s0, t0 := doc.State(), Hook(job, tenantId, HookRead);
    AtStart(s0, t0, envs, 0);
    Then(s0, t0, s0, t0, envs, 0, 0);
    var document, tenant := doc.row, envs(0).tenant;
    seen := Observed(document.status, document.docType, doc.extraction, |doc.writes|, |doc.log|);
    if envs(0).fault != NoFault {
      doc.FinishHook(job, Throws);
      return HookThrew, seen;
    }
    if tenantId != document.tenantId || !HasUrl(tenant) || !tenant.value.webhookSecret
        || !Deliverable(document.status) {
      doc.FinishHook(job, Returns);
      return HookSkipped, seen;
    }
    return HookCount(seen), seen;
  }

  /** Count the delivery rows and build the payload. */
  method HookPrepare(doc: DocumentState, job: nat, tenantId: string, seen: Observed, envs: nat -> Env, ghost s0: Shared,
      ghost t0: Task)
    returns (end: HookPc, message: Sent, attempt: nat, n: nat)
    requires At(doc.State(), Hook(job, tenantId, HookCount(seen)), s0, t0, envs, 0, 1)
    modifies doc
    ensures n <= 3 && (end == HookThrew || end == HookInsert(message, attempt))
    ensures At(doc.State(), Hook(job, tenantId, end), s0, t0, envs, 0, n)
  {
    Then(doc.State(), Hook(job, tenantId, HookCount(seen)), s0, t0, envs, 0, 1);
    attempt := |doc.deliveries| + 1;
    message := Message(doc.row, seen, None);
    if envs(1).fault != NoFault {
      doc.FinishHook(job, Throws);
      return HookThrew, message, attempt, 2;
    }
    if seen.status != Rejected {
      return HookInsert(message, attempt), message, attempt, 2;
    }
    Then(doc.State(), Hook(job, tenantId, HookReason(seen, attempt)), s0, t0, envs, 0, 2);
    if envs(2).fault != NoFault {
      doc.FinishHook(job, Throws);
      return HookThrew, message, attempt, 3;
    }
    message := Message(doc.row, seen, LatestRejection(doc.log));
    return HookInsert(message, attempt), message, attempt, 3;
  }

  /** Insert the row, send, record the outcome, log, and decide whether the queue should try again. */
  method HookDeliver(doc: DocumentState, job: nat, tenantId: string, message: Sent, attempt: nat, envs: nat -> Env,
      m: nat, ghost s0: Shared, ghost t0: Task)
    returns (end: HookPc, n: nat)
    requires At(doc.State(), Hook(job, tenantId, HookInsert(message, attempt)), s0, t0, envs, 0, m)
    modifies doc
    ensures n <= m + 4
    ensures end == HookSucceeded || end == HookDeadLettered || end == HookThrew
    ensures At(doc.State(), Hook(job, tenantId, end), s0, t0, envs, 0, n)
  {
    var delivery := |doc.deliveries|;
    Then(doc.State(), Hook(job, tenantId, HookInsert(message, attempt)), s0, t0, envs, 0, m);
    var threw := doc.Await(InsertDelivery(tenantId, attempt), envs(m));
    if threw {
      doc.FinishHook(job, Throws);
      return HookThrew, m + 1;
    }
    end, n := HookSend(doc, job, tenantId, message, attempt, delivery, envs, m + 1, s0, t0);
  }

  /** A failed request is caught: it only makes the outcome a failure. */
  method HookSend(doc: DocumentState, job: nat, tenantId: string, message: Sent, attempt: nat, delivery: nat,
      envs: nat -> Env, m: nat, ghost s0: Shared, ghost t0: Task)
    returns (end: HookPc, n: nat)
    requires At(doc.State(), Hook(job, tenantId, HookFetch(message, attempt, delivery)), s0, t0, envs, 0, m)
    modifies doc
    ensures n <= m + 3
    ensures end == HookSucceeded || end == HookDeadLettered || end == HookThrew
    ensures At(doc.State(), Hook(job, tenantId, end), s0, t0, envs, 0, n)
  {
    FetchMoves(doc.State(), Hook(job, tenantId, HookFetch(message, attempt, delivery)), envs(m));
    Then(doc.State(), Hook(job, tenantId, HookFetch(message, attempt, delivery)), s0, t0, envs, 0, m);
    doc.Fetch(message);
    end, n := HookConclude(doc, job, tenantId, attempt, delivery, envs(m).responseOk, envs, m + 1, s0, t0);
  }

  lemma FetchMoves(s: Shared, t: Task, env: Env)
    requires t.Hook? && t.hook.HookFetch?
    ensures MoveOf(s, t, env)
            == Move(Send(t.hook.message), t.(hook := HookRecord(t.hook.attempt, t.hook.delivery, env.responseOk)),
                GoesOn)
  {
  }

  lemma RecordMoves(s: Shared, t: Task, env: Env)
    requires t.Hook? && t.hook.HookRecord?
    ensures MoveOf(s, t, env)
            == OrThrow(env, RecordDelivery(t.hook.delivery, DeliveryOutcome(t.hook.attempt, t.hook.ok)),
                       t.(hook := HookLog(t.hook.attempt, t.hook.ok)), t.(hook := HookThrew))
  {
  }

  method HookStore(doc: DocumentState, job: nat, tenantId: string, attempt: nat, delivery: nat, ok: bool,
      envs: nat -> Env, m: nat, ghost s0: Shared, ghost t0: Task)
    returns (threw: bool)
    requires At(doc.State(), Hook(job, tenantId, HookRecord(attempt, delivery, ok)), s0, t0, envs, 0, m)
    modifies doc
    ensures At(doc.State(), Hook(job, tenantId, if threw then HookThrew else HookLog(attempt, ok)), s0, t0, envs, 0,
            m + 1)
  {
    RecordMoves(doc.State(), Hook(job, tenantId, HookRecord(attempt, delivery, ok)), envs(m));
    ThenOrThrow(doc.State(), Hook(job, tenantId, HookRecord(attempt, delivery, ok)),
                RecordDelivery(delivery, DeliveryOutcome(attempt, ok)),
                Hook(job, tenantId, HookLog(attempt, ok)), Hook(job, tenantId, HookThrew), s0, t0, envs, 0, m);
    threw := doc.Await(RecordDelivery(delivery, DeliveryOutcome(attempt, ok)), envs(m));
    if threw { doc.FinishHook(job, Throws); }
  }

  method HookConclude(doc: DocumentState, job: nat, tenantId: string, attempt: nat, delivery: nat, ok: bool,
      envs: nat -> Env, m: nat, ghost s0: Shared, ghost t0: Task)
    returns (end: HookPc, n: nat)
    requires At(doc.State(), Hook(job, tenantId, HookRecord(attempt, delivery, ok)), s0, t0, envs, 0, m)
    modifies doc
    ensures n <= m + 2
    ensures end == HookSucceeded || end == HookDeadLettered || end == HookThrew
    ensures At(doc.State(), Hook(job, tenantId, end), s0, t0, envs, 0, n)
  {
    var threw := HookStore(doc, job, tenantId, attempt, delivery, ok, envs, m, s0, t0);
    if threw {
      return HookThrew, m + 1;
    }
    end := HookLogOutcome(doc, job, tenantId, attempt, ok, envs, m + 1, s0, t0);
    return end, m + 2;
  }

  lemma LogMoves(s: Shared, t: Task, env: Env)
    requires t.Hook? && t.hook.HookLog?
    ensures var attempt, ok := t.hook.attempt, t.hook.ok;
            var end := if env.fault != NoFault then HookThrew else if ok then HookSucceeded
                       else if attempt >= WEBHOOK_MAX_ATTEMPTS then HookDeadLettered else HookThrew;
            var event := if ok then WebhookSentEvent else WebhookFailedEvent;
            MoveOf(s, t, env)
            == Move(Unless(env, AppendRow(AuditRow(None, event, None, None, AttemptPayload(attempt)))),
                    t.(hook := end), if end == HookThrew then Throws else Returns)
  {
  }

  method HookLogOutcome(doc: DocumentState, job: nat, tenantId: string, attempt: nat, ok: bool, envs: nat -> Env,
      m: nat, ghost s0: Shared, ghost t0: Task)
    returns (end: HookPc)
    requires At(doc.State(), Hook(job, tenantId, HookLog(attempt, ok)), s0, t0, envs, 0, m)
    modifies doc
    ensures end == HookSucceeded || end == HookDeadLettered || end == HookThrew
    ensures At(doc.State(), Hook(job, tenantId, end), s0, t0, envs, 0, m + 1)
  {
    LogMoves(doc.State(), Hook(job, tenantId, HookLog(attempt, ok)), envs(m));
    Then(doc.State(), Hook(job, tenantId, HookLog(attempt, ok)), s0, t0, envs, 0, m);
    var event := if ok then WebhookSentEvent else WebhookFailedEvent;
    var threw := doc.Await(AppendRow(AuditRow(None, event, None, None, AttemptPayload(attempt))), envs(m));
    end := HookThrew;
    if !threw && ok {
      end := HookSucceeded;
    } else if !threw && attempt >= WEBHOOK_MAX_ATTEMPTS {
      end := HookDeadLettered;
    }
    doc.FinishHook(job, if end == HookThrew then Throws else Returns);
  }
}
