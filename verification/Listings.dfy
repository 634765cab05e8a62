/** What it matters in which order a store lists its tasks: the in-memory store lists them in any order, and each
    time in another, the persistent one in the order of their keys. */
module Listings {
  import opened TaskState
  import opened Tasks
  import opened WorkerSpec
  import opened WorkerRuns

  /** The operations are the same, except for the order in which the store lists its tasks. */
  predicate SameButOrder(op: Op, other: Op) {
    if op.RegisterWorker? && other.RegisterWorker? then op.w == other.w && op.error == other.error else op == other
  }

  ghost predicate SameButOrders(ops: seq<Op>, others: seq<Op>) {
    |ops| == |others| && forall i :: 0 <= i < |ops| ==> SameButOrder(ops[i], others[i])
  }

  predicate GoesOnWith(m: Option<Task>) {
    m.Some? && m.value.state == Scheduled
  }

  /** Both listings lead to the same task, or neither leads to one that registration goes on with. */
  predicate SameFind(db: Db, op: Op, other: Op) {
    op.RegisterWorker? && other.RegisterWorker? ==>
      var m, n := FirstMatch(db, op.order, op.w.id), FirstMatch(db, other.order, other.w.id);
      m == n || (!GoesOnWith(m) && !GoesOnWith(n))
  }

  /** Registration with a task that it goes on with changes that task and no other. */
  lemma RegistrationMoves(db: Db, op: Op)
    requires Quiescent(db) && op.RegisterWorker? && Legal(db, op)
    ensures var db', m := Puts(db, Writes(db, op)), FirstMatch(db, op.order, op.w.id);
      if GoesOnWith(m)
      then && m.value.id in db && db[m.value.id] == m.value && db'.Keys == db.Keys
           && db'[m.value.id].state != Scheduled
           && forall id :: id in db && id != m.value.id ==> db'[id] == db[id]
      else db' == db
  {
    RegisterEffect(db, op.w, op.order, op.error);
  }

  /** Two registrations that differ in the listing only have the same effect exactly if both listings lead to the
      same task, or neither leads to a scheduled one. */
  lemma RegistrationsAgreeExactlyWhen(db: Db, op: Op, other: Op)
    requires Quiescent(db) && Legal(db, op) && Legal(db, other) && SameButOrder(op, other)
    ensures Puts(db, Writes(db, op)) == Puts(db, Writes(db, other)) <==> SameFind(db, op, other)
  {
    if op.RegisterWorker? && other.RegisterWorker? {
      RegistrationMoves(db, op);
      RegistrationMoves(db, other);
    }
  }

  /** So it is at every registration of a run. */
  ghost predicate SameFinds(db: Db, ops: seq<Op>, others: seq<Op>)
    requires |ops| == |others|
    decreases |ops|
  {
    ops == [] ||
    (SameFind(db, ops[0], others[0]) && SameFinds(Puts(db, Writes(db, ops[0])), ops[1..], others[1..]))
  }

  /** The two runs pass through the same contents. */
  ghost predicate InStep(db: Db, other: Db, ops: seq<Op>, others: seq<Op>)
    requires |ops| == |others|
    decreases |ops|
  {
    db == other &&
    (ops == [] ||
     InStep(Puts(db, Writes(db, ops[0])), Puts(other, Writes(other, others[0])), ops[1..], others[1..]))
  }

  lemma {:induction false} InStepEndsEqual(db: Db, other: Db, ops: seq<Op>, others: seq<Op>)
    requires |ops| == |others| && InStep(db, other, ops, others)
    ensures RunDb(db, ops) == RunDb(other, others)
    decreases |ops|
  {
    if ops != [] {
      InStepEndsEqual(Puts(db, Writes(db, ops[0])), Puts(other, Writes(other, others[0])), ops[1..], others[1..]);
    }
  }

  /** Two stores that list in orders of their own hold the same after every operation of a serial run exactly if at
      every registration their listings lead to the same task, or to none that is scheduled. */
  lemma {:induction false} StoresAgreeExactlyWhen(db: Db, ops: seq<Op>, others: seq<Op>)
    requires Quiescent(db) && LegalRun(db, ops) && LegalRun(db, others) && SameButOrders(ops, others)
    ensures InStep(db, db, ops, others) <==> SameFinds(db, ops, others)
    decreases |ops|
  {
    if ops != [] {
      assert SameButOrder(ops[0], others[0]);
      RegistrationsAgreeExactlyWhen(db, ops[0], others[0]);
      if SameFind(db, ops[0], others[0]) {
        OpEffect(db, ops[0]);
        StoresAgreeExactlyWhen(Puts(db, Writes(db, ops[0])), ops[1..], others[1..]);
      }
    }
  }

  // ---------------------------------------------------------------- one task per container

  ghost predicate AloneIn(db: Db, containerId: string) {
    forall id, other :: id in db && other in db && db[id].containerId == containerId == db[other].containerId ==>
      id == other
  }

  /** No worker registers from a container that several stored tasks claim to be in. */
  ghost predicate Unshared(db: Db, ops: seq<Op>)
    decreases |ops|
  {
    ops == [] ||
    ((ops[0].RegisterWorker? ==> AloneIn(db, ops[0].w.id)) && Unshared(Puts(db, Writes(db, ops[0])), ops[1..]))
  }

  /** Then the order of the listing does not matter. */
  lemma OneMatch(db: Db, order: seq<Id>, otherOrder: seq<Id>, containerId: string)
    requires AloneIn(db, containerId)
    requires forall id :: id in order <==> id in otherOrder
    ensures FirstMatch(db, order, containerId) == FirstMatch(db, otherOrder, containerId)
  {
    var m, n := FirstMatch(db, order, containerId), FirstMatch(db, otherOrder, containerId);
    if m.Some? {
      var id :| id in order && id in db && m == Some(db[id]) && db[id].containerId == containerId;
      assert id in otherOrder;
      assert n.Some?;
    }
  }

  /** The two stores agree over every run in which no worker registers from a container that two stored tasks
      share. */
  lemma {:induction false} UnsharedRunsAgree(db: Db, ops: seq<Op>, others: seq<Op>)
    requires Quiescent(db) && LegalRun(db, ops) && LegalRun(db, others) && SameButOrders(ops, others)
    requires Unshared(db, ops)
    ensures SameFinds(db, ops, others) && InStep(db, db, ops, others)
    decreases |ops|
  {
    if ops != [] {
      assert SameButOrder(ops[0], others[0]);
      if ops[0].RegisterWorker? && others[0].RegisterWorker? {
        OneMatch(db, ops[0].order, others[0].order, ops[0].w.id);
      }
      RegistrationsAgreeExactlyWhen(db, ops[0], others[0]);
      OpEffect(db, ops[0]);
      UnsharedRunsAgree(Puts(db, Writes(db, ops[0])), ops[1..], others[1..]);
    }
    StoresAgreeExactlyWhen(db, ops, others);
  }

  /** `t` arrives with a container id and its creation fails; `u` is created in the container of that id; its worker
      registers. */
  function SharedContainer(t: Task, u: Task, msg: string, network: seq<string>, w: WorkerInstance, order: seq<Id>)
    : seq<Op>
  {
    [CreateContainer(t, NoService(msg)), CreateContainer(u, Created(network, w.id)), RegisterWorker(w, order, None)]
  }

  lemma FirstOp(db: Db, op: Op, rest: seq<Op>)
    ensures var mid := Puts(db, Writes(db, op));
      && RunDb(db, [op] + rest) == RunDb(mid, rest)
      && (LegalRun(db, [op] + rest) <==> Legal(db, op) && LegalRun(mid, rest))
  {
    assert ([op] + rest)[1..] == rest;
  }

  lemma ThreeOps(db: Db, a: Op, b: Op, c: Op)
    ensures var first := Puts(db, Writes(db, a)); var second := Puts(first, Writes(first, b));
      && RunDb(db, [a, b, c]) == Puts(second, Writes(second, c))
      && (LegalRun(db, [a, b, c]) <==> Legal(db, a) && Legal(first, b) && Legal(second, c))
  {
    var first := Puts(db, Writes(db, a));
    var second := Puts(first, Writes(first, b));
    FirstOp(second, c, []);
    FirstOp(first, b, [c] + []);
    FirstOp(db, a, [b] + ([c] + []));
    assert [a, b, c] == [a] + ([b] + ([c] + []));
  }

  /** What is stored when the worker registers. */
  function BothCreated(t: Task, u: Task, msg: string, network: seq<string>, w: WorkerInstance): Db {
    map[t.id := CreateResult(AsCreating(t), NoService(msg)),
        u.id := CreateResult(AsCreating(u), Created(network, w.id))]
  }

  lemma AfterCreations(
      t: Task, u: Task, msg: string, network: seq<string>, w: WorkerInstance, order: seq<Id>)
    requires ValidStateTransition(t.state, Creating) && ValidStateTransition(u.state, Creating)
    requires t.id != u.id && (order == [t.id, u.id] || order == [u.id, t.id])
    ensures var ops, db := SharedContainer(t, u, msg, network, w, order), BothCreated(t, u, msg, network, w);
      && LegalRun(map[], ops) && RunDb(map[], ops) == Puts(db, Writes(db, RegisterWorker(w, order, None)))
      && Quiescent(db) && Legal(db, RegisterWorker(w, order, None))
  {
    var ops := SharedContainer(t, u, msg, network, w, order);
    CreateEffect(map[], t, NoService(msg));
    var first: Db := map[t.id := CreateResult(AsCreating(t), NoService(msg))];
    CreateEffect(first, u, Created(network, w.id));
    assert first[u.id := CreateResult(AsCreating(u), Created(network, w.id))] == BothCreated(t, u, msg, network, w);
    ThreeOps(map[], ops[0], ops[1], ops[2]);
  }

  lemma OneListing(
      t: Task, u: Task, msg: string, network: seq<string>, w: WorkerInstance, order: seq<Id>)
    requires ValidStateTransition(t.state, Creating) && ValidStateTransition(u.state, Creating)
    requires t.id != u.id && t.containerId == w.id && w.isHealthy
    requires order == [t.id, u.id] || order == [u.id, t.id]
    ensures var ops := SharedContainer(t, u, msg, network, w, order);
      && LegalRun(map[], ops) && u.id in RunDb(map[], ops)
      && RunDb(map[], ops)[u.id].state == if order[0] == u.id then Running else Scheduled
  {
    AfterCreations(t, u, msg, network, w, order);
    RegisterEffect(BothCreated(t, u, msg, network, w), w, order, None);
  }

  /** Then it does matter: whether the task is found depends on the listing. */
  lemma ListingOrderDecides(t: Task, u: Task, msg: string, network: seq<string>, w: WorkerInstance)
    requires ValidStateTransition(t.state, Creating) && ValidStateTransition(u.state, Creating)
    requires t.id != u.id && t.containerId == w.id && w.isHealthy
    ensures var ops := SharedContainer(t, u, msg, network, w, [t.id, u.id]);
      var others := SharedContainer(t, u, msg, network, w, [u.id, t.id]);
      && LegalRun(map[], ops) && LegalRun(map[], others) && SameButOrders(ops, others)
      && u.id in RunDb(map[], ops) && RunDb(map[], ops)[u.id].state == Scheduled
      && u.id in RunDb(map[], others) && RunDb(map[], others)[u.id].state == Running
  {
    OneListing(t, u, msg, network, w, [t.id, u.id]);
    OneListing(t, u, msg, network, w, [u.id, t.id]);
  }
}
