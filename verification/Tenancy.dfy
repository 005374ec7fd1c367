/** Tenant noninterference over whole runs: whatever programs the other tenants run, tenant t's view of the
    database and everything its own processes are told are the same as if those programs had not run. */
module Tenancy {
  import opened Schema
  import opened Database

  /** What tenant t can see. */
  function View(db: Db, t: string): Db {
    Db(map id | id in db.docs && db.docs[id].row.tenantId == t :: db.docs[id],
       map d | d in db.deliveries && db.deliveries[d].tenantId == t :: db.deliveries[d])
  }

  /** A process: the tenant whose context its transactions set, and any function from the answers it has had
      so far to the transaction it runs next. Requests and job executions are processes. */
  datatype Process = Process(tenant: string, code: seq<Answer> -> Op)

  datatype World = World(db: Db, answers: seq<seq<Answer>>)

  function Step(processes: seq<Process>, w: World, p: nat): World
    requires |w.answers| == |processes|
  {
    if p >= |processes| then w
    else
      var (db', a) := Exec(w.db, processes[p].tenant, processes[p].code(w.answers[p]));
      World(db', w.answers[p := w.answers[p] + [a]])
  }

  function Run(processes: seq<Process>, w: World, schedule: seq<nat>): (w': World)
    requires |w.answers| == |processes|
    ensures |w'.answers| == |processes|
  {
    if schedule == [] then w
    else Step(processes, Run(processes, w, schedule[..|schedule| - 1]), schedule[|schedule| - 1])
  }

  /** The schedule without the steps of other tenants' processes. */
  function Purge(processes: seq<Process>, schedule: seq<nat>, t: string): seq<nat> {
    if schedule == [] then []
    else
      var p := schedule[|schedule| - 1];
      Purge(processes, schedule[..|schedule| - 1], t) + if p < |processes| && processes[p].tenant == t then [p] else []
  }

  // ----- hypotheses on identifiers

  /** Generated identifiers are globally unique: owner says which tenant's code drew one. And delivery rows are
      inserted only for a document the process has been shown. */
  ghost predicate OwnIds(tenant: string, h: seq<Answer>, op: Op, owner: string -> string) {
    && (op.InsertDocument? ==> owner(op.id) == tenant)
    && (op.InsertDelivery? ==> owner(op.deliveryId) == tenant && WasShown(h, op.id))
  }

  ghost predicate DrawsOwnIds(p: Process, owner: string -> string) {
    forall h :: OwnIds(p.tenant, h, p.code(h), owner)
  }

  predicate Shows(a: Answer, id: string) {
    a.Found? && a.row.id == id
  }

  ghost predicate WasShown(h: seq<Answer>, id: string) {
    exists k :: 0 <= k < |h| && Shows(h[k], id)
  }

  ghost predicate OwnedIds(db: Db, owner: string -> string) {
    && (forall id <- db.docs :: owner(id) == db.docs[id].row.tenantId && db.docs[id].row.id == id)
    && (forall d <- db.deliveries :: owner(d) == db.deliveries[d].tenantId)
  }

  // ----- one transaction

  /** A transaction of one tenant leaves every other tenant's view as it was. */
  lemma OthersUnaffected(db: Db, u: string, op: Op, t: string)
    requires u != t
    ensures View(Exec(db, u, op).0, t) == View(db, t)
  {
    match op {
      case CountDeliveries(_) =>
      case InsertDelivery(_, _, _) => DeliveryHidden(db, u, op, t);
      case UpdateDelivery(_, _) => DeliveryHidden(db, u, op, t);
      case InsertDocument(_, _, _) => assert View(Exec(db, u, op).0, t).docs == View(db, t).docs;
      case _ => DocumentOpHidden(db, u, op, t);
    }
  }

  lemma DeliveryHidden(db: Db, u: string, op: Op, t: string)
    requires u != t && (op.InsertDelivery? || op.UpdateDelivery?)
    ensures View(Exec(db, u, op).0, t) == View(db, t)
  {
    assert View(Exec(db, u, op).0, t).deliveries == View(db, t).deliveries;
  }

  lemma DocumentOpHidden(db: Db, u: string, op: Op, t: string)
    requires u != t && !op.CountDeliveries? && !op.InsertDelivery? && !op.UpdateDelivery? && !op.InsertDocument?
    ensures View(Exec(db, u, op).0, t) == View(db, t)
  {
    if Visible(db, u, op.id) {
      var tables := Exec(db, u, op).0.docs[op.id];
      assert Exec(db, u, op).0 == db.(docs := db.docs[op.id := tables]);
      HiddenUpdate(db, t, op.id, tables);
    }
  }

  lemma HiddenUpdate(db: Db, t: string, id: string, tables: Tables)
    requires id in db.docs && db.docs[id].row.tenantId != t && tables.row.tenantId != t
    ensures View(db.(docs := db.docs[id := tables]), t) == View(db, t)
  {
  }

  /** Identifiers an insert would collide with are the tenant's own. */
  predicate NoForeignClash(db: Db, t: string, op: Op) {
    match op
    case InsertDocument(id, _, _) => id in db.docs ==> Visible(db, t, id)
    case InsertDelivery(id, d, _) => Visible(db, t, id) && (d in db.deliveries ==> db.deliveries[d].tenantId == t)
    case _ => true
  }

  lemma ViewVisible(db: Db, t: string, id: string)
    ensures Visible(View(db, t), t, id) <==> Visible(db, t, id)
    ensures Visible(db, t, id) ==> View(db, t).docs[id] == db.docs[id]
  {
  }

  lemma ViewDeliveries(db: Db, t: string, id: string)
    ensures DeliveriesOf(View(db, t).deliveries, t, id) == DeliveriesOf(db.deliveries, t, id)
  {
  }

  /** What a transaction answers, and what it makes of its tenant's view, is a function of that view. */
  lemma ExecFactorsThroughView(db: Db, t: string, op: Op)
    requires NoForeignClash(db, t, op)
    ensures Exec(View(db, t), t, op).1 == Exec(db, t, op).1
    ensures Exec(View(db, t), t, op).0 == View(Exec(db, t, op).0, t)
  {
    match op {
      case CountDeliveries(id) => ViewDeliveries(db, t, id);
      case InsertDelivery(id, d, n) => InsertDeliveryFactors(db, t, id, d, n);
      case UpdateDelivery(d, status) => UpdateDeliveryFactors(db, t, d, status);
      case InsertDocument(id, by_, name) => InsertDocumentFactors(db, t, id, by_, name);
      case _ => DocumentOpFactors(db, t, op);
    }
  }

  lemma InsertDeliveryFactors(db: Db, t: string, id: string, d: string, n: nat)
    requires NoForeignClash(db, t, InsertDelivery(id, d, n))
    ensures var op := InsertDelivery(id, d, n);
            Exec(View(db, t), t, op).1 == Exec(db, t, op).1 && Exec(View(db, t), t, op).0 == View(Exec(db, t, op).0, t)
  {
  }

  lemma UpdateDeliveryFactors(db: Db, t: string, d: string, status: DeliveryStatus)
    ensures var op := UpdateDelivery(d, status);
            Exec(View(db, t), t, op).1 == Exec(db, t, op).1 && Exec(View(db, t), t, op).0 == View(Exec(db, t, op).0, t)
  {
  }

  lemma InsertDocumentFactors(db: Db, t: string, id: string, by_: string, name: string)
    requires NoForeignClash(db, t, InsertDocument(id, by_, name))
    ensures var op := InsertDocument(id, by_, name);
            Exec(View(db, t), t, op).1 == Exec(db, t, op).1 && Exec(View(db, t), t, op).0 == View(Exec(db, t, op).0, t)
  {
  }

  lemma DocumentOpFactors(db: Db, t: string, op: Op)
    requires !op.CountDeliveries? && !op.InsertDelivery? && !op.UpdateDelivery? && !op.InsertDocument?
    ensures Exec(View(db, t), t, op).1 == Exec(db, t, op).1
    ensures Exec(View(db, t), t, op).0 == View(Exec(db, t, op).0, t)
  {
    ViewVisible(db, t, op.id);
    if Visible(db, t, op.id) {
      var tables := Exec(db, t, op).0.docs[op.id];
      assert Exec(db, t, op).0 == db.(docs := db.docs[op.id := tables]);
      assert tables.row.tenantId == t;
      ViewOfUpdate(db, t, op.id, tables);
    }
  }

  lemma ViewOfUpdate(db: Db, t: string, id: string, tables: Tables)
    requires Visible(db, t, id) && tables.row.tenantId == t
    ensures View(db.(docs := db.docs[id := tables]), t) == View(db, t).(docs := View(db, t).docs[id := tables])
  {
  }

  // ----- whole runs

  /** Ids are owned, and what a process was shown is still there for its tenant. */
  ghost predicate WorldOk(processes: seq<Process>, w: World, owner: string -> string) {
    && |w.answers| == |processes|
    && OwnedIds(w.db, owner)
    && forall p, k :: 0 <= p < |processes| && 0 <= k < |w.answers[p]| && w.answers[p][k].Found? ==>
         Visible(w.db, processes[p].tenant, w.answers[p][k].row.id)
  }

  lemma StepOk(processes: seq<Process>, w: World, owner: string -> string, p: nat)
    requires WorldOk(processes, w, owner) && p < |processes| && DrawsOwnIds(processes[p], owner)
    ensures WorldOk(processes, Step(processes, w, p), owner)
    ensures NoForeignClash(w.db, processes[p].tenant, processes[p].code(w.answers[p]))
  {
    var op := processes[p].code(w.answers[p]);
    assert OwnIds(processes[p].tenant, w.answers[p], op, owner);
    if op.InsertDelivery? {
      var k :| 0 <= k < |w.answers[p]| && Shows(w.answers[p][k], op.id);
    }
    ExecKeepsOwnership(w.db, processes[p].tenant, op, owner);
  }

  lemma ExecKeepsOwnership(db: Db, t: string, op: Op, owner: string -> string)
    requires OwnedIds(db, owner)
    requires op.InsertDocument? ==> owner(op.id) == t
    requires op.InsertDelivery? ==> owner(op.deliveryId) == t
    ensures OwnedIds(Exec(db, t, op).0, owner)
    ensures forall u, id :: Visible(db, u, id) ==> Visible(Exec(db, t, op).0, u, id)
    ensures Exec(db, t, op).1.Found? ==> Visible(db, t, Exec(db, t, op).1.row.id)
  {
  }

  /** What tenant t's processes were told. */
  ghost predicate SameAnswers(processes: seq<Process>, t: string, w1: World, w2: World)
    requires |w1.answers| == |processes| == |w2.answers|
  {
    forall p :: 0 <= p < |processes| && processes[p].tenant == t ==> w1.answers[p] == w2.answers[p]
  }

  /** Noninterference: dropping every step of the other tenants' processes changes neither what t sees in the
      end nor any answer t's processes got on the way. */
  lemma {:induction false} Noninterference(
    processes: seq<Process>, owner: string -> string, w: World, schedule: seq<nat>, t: string)
    requires WorldOk(processes, w, owner)
    requires forall p <- processes :: DrawsOwnIds(p, owner)
    ensures WorldOk(processes, Run(processes, w, schedule), owner)
    ensures WorldOk(processes, Run(processes, w, Purge(processes, schedule, t)), owner)
    ensures View(Run(processes, w, schedule).db, t) == View(Run(processes, w, Purge(processes, schedule, t)).db, t)
    ensures SameAnswers(processes, t, Run(processes, w, schedule), Run(processes, w, Purge(processes, schedule, t)))
  {
    if schedule != [] {
      var before, p := schedule[..|schedule| - 1], schedule[|schedule| - 1];
      Noninterference(processes, owner, w, before, t);
      var w1, w2 := Run(processes, w, before), Run(processes, w, Purge(processes, before, t));
      var purged := Purge(processes, schedule, t);
      if p < |processes| {
        StepOk(processes, w1, owner, p);
        if processes[p].tenant == t {
          StepOk(processes, w2, owner, p);
          assert purged[..|purged| - 1] == Purge(processes, before, t);
          SameStep(processes, w1, w2, p, t);
        } else {
          assert purged == Purge(processes, before, t);
          OthersUnaffected(w1.db, processes[p].tenant, processes[p].code(w1.answers[p]), t);
        }
      } else {
        assert purged == Purge(processes, before, t);
      }
    }
  }

  lemma SameStep(processes: seq<Process>, w1: World, w2: World, p: nat, t: string)
    requires |w1.answers| == |processes| == |w2.answers| && p < |processes| && processes[p].tenant == t
    requires View(w1.db, t) == View(w2.db, t) && SameAnswers(processes, t, w1, w2)
    requires NoForeignClash(w1.db, t, processes[p].code(w1.answers[p]))
    requires NoForeignClash(w2.db, t, processes[p].code(w2.answers[p]))
    ensures View(Step(processes, w1, p).db, t) == View(Step(processes, w2, p).db, t)
    ensures SameAnswers(processes, t, Step(processes, w1, p), Step(processes, w2, p))
  {
    var op := processes[p].code(w1.answers[p]);
    ExecFactorsThroughView(w1.db, t, op);
    ExecFactorsThroughView(w2.db, t, op);
  }
}
