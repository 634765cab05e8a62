/** The worker service's task operations, over either store. */
module WorkerService {
  import opened TaskState
  import opened Tasks
  import opened Stores
  import opened WorkerSpec
  import opened WorkerRuns
  import opened Listings
  import opened Outcomes
  import OutputStream

  class WorkerService {
    const db: Store
    var workers: map<string, WorkerInstance>

    constructor (db: Store)
      ensures this.db == db && workers == map[]
    {
      this.db := db;
      workers := map[];
    }

    method FailTask(t: Task, msg: Message)
      requires db.Tidy()
      modifies db
      ensures db.Tidy() && db.backend.Memory? == old(db.backend.Memory?)
      ensures db.contents == if ValidStateTransition(t.state, Failed)
                             then old(db.contents)[t.id := AsFailed(t, msg)] else old(db.contents)
      ensures fresh(db.Repr - old(db.Repr))
    {
      if !ValidStateTransition(t.state, Failed) {
        return;
      }
      var c := new TaskCell(t.id, AsFailed(t, msg));
      db.Put(c.v.id, c);
    }

    /** The sandbox has rewritten the network configuration, and failed then. */
    method FailCreation(c: TaskCell, network: seq<string>, msg: string)
      requires db.Tidy() && c.v.state == Creating && c.key == c.v.id
      requires db.backend.Memory? ==> Holds(db.backend, c.v.id, c)
      modifies db, c
      ensures db.Tidy() && db.backend.Memory? == old(db.backend.Memory?)
      ensures db.contents == old(db.contents)[old(c.v.id) := CreateResult(old(c.v), NotCreated(network, msg))]
      ensures fresh(db.Repr - old(db.Repr) - {c})
    {
      AssignmentAtHome(db.backend, db.held, db.contents, c, c.v.(network := network));
      db.WriteThrough(c, c.v.(network := network));
      FailTask(c.v, Reported(msg));
    }

    /** The second half of createContainer: the task is stored as Creating and `c` is what was stored.
        `mid` is what a reader sees between the last write to the task and the Put that follows it. */
    method CreateSandbox(c: TaskCell, o: CreateOutcome) returns (ok: bool, ghost mid: Db)
      requires db.Tidy() && c.v.state == Creating && c.key == c.v.id
      requires db.backend.Memory? ==> Holds(db.backend, c.v.id, c)
      modifies db, c
      ensures db.Tidy() && db.backend.Memory? == old(db.backend.Memory?)
      ensures db.contents == old(db.contents)[old(c.v.id) := CreateResult(old(c.v), o)]
      ensures ok <==> o.Created?
      ensures ok ==> mid == if db.backend.Memory? then db.contents else old(db.contents)
      ensures fresh(db.Repr - old(db.Repr) - {c})
    {
      mid := db.contents;
      match o {
        case NoService(msg) =>
          FailTask(c.v, Reported(msg));
          ok := false;
        case NotCreated(network, msg) =>
          FailCreation(c, network, msg);
          ok := false;
        case Created(network, containerId) =>
          mid := db.Save(c.v.id, c, c.v.(network := network, state := Scheduled, containerId := containerId,
                                         message := ContainerCreated));
          ok := true;
      }
    }

    method CreateContainer(t: Task, o: CreateOutcome) returns (ok: bool, ghost mid: Db)
      requires db.Tidy()
      modifies db
      ensures db.Tidy() && db.backend.Memory? == old(db.backend.Memory?)
      ensures db.contents == if ValidStateTransition(t.state, Creating)
                             then old(db.contents)[t.id := CreateResult(AsCreating(t), o)] else old(db.contents)
      ensures ok <==> ValidStateTransition(t.state, Creating) && o.Created?
      ensures ok ==> mid == if db.backend.Memory? then db.contents else old(db.contents)[t.id := AsCreating(t)]
      ensures fresh(db.Repr - old(db.Repr))
      ensures AfterCreate(old(db.contents), t, o, db.contents)
    {
      CreateHasOutcome(db.contents, t, o);
      if !ValidStateTransition(t.state, Creating) {
        return false, db.contents;
      }
      var c := new TaskCell(t.id, AsCreating(t));
      db.Put(t.id, c);
      assert c.v == AsCreating(t) && c.v.id == t.id;
      ok, mid := CreateSandbox(c, o);
    }

    /** StartTask, with the goroutine that sends the command.  If the command cannot be sent there will be no
        output, and the captured variable, which is the stored one in memory, is reported as failed. */
    method StartTask(t: Task, error: Option<string>) returns (ok: bool)
      requires db.Tidy()
      modifies db
      ensures db.Tidy() && db.backend.Memory? == old(db.backend.Memory?)
      ensures db.contents ==
        if ValidStateTransition(t.state, Running)
        then old(db.contents)[t.id := StartResult(t, error)]
        else if ValidStateTransition(t.state, Failed)
        then old(db.contents)[t.id := AsFailed(t, NoTransition(t.state, Running))]
        else old(db.contents)
      ensures ok <==> ValidStateTransition(t.state, Running)
      ensures fresh(db.Repr - old(db.Repr))
    {
      if !ValidStateTransition(t.state, Running) {
        FailTask(t, NoTransition(t.state, Running));
        return false;
      }
      var captured := new TaskCell(t.id, AsRunning(t));
      db.Put(t.id, captured);
      if error.Some? {
        FailTask(captured.v, Reported(error.value));
      }
      ok := true;
    }

    /** The second half of StopTask: the task is stored as Stopping and `c` is what was stored. */
    method DeleteSandbox(c: TaskCell, o: DeleteOutcome) returns (ok: bool)
      requires db.Tidy() && c.v.state == Stopping && c.key == c.v.id
      modifies this, db, c
      ensures db.Tidy() && db.backend.Memory? == old(db.backend.Memory?)
      ensures db.contents == old(db.contents)[old(c.v.id) := StopResult(old(c.v), o)]
      ensures ok <==> o.Deleted?
      ensures workers == if ok then old(workers) - {old(c.v.containerId)} else old(workers)
      ensures fresh(db.Repr - old(db.Repr) - {c})
    {
      match o {
        case NoDeleteService(msg) =>
          FailTask(c.v, Reported(msg));
          ok := false;
        case NotDeleted(msg) =>
          FailTask(c.v, Reported(msg));
          ok := false;
        case Deleted(now) =>
          ghost var _ := db.Save(c.v.id, c, c.v.(state := Completed, finishTime := Some(now),
                                                 message := ContainerStopped));
          workers := workers - {c.v.containerId};
          ok := true;
      }
    }

    method StopTask(t: Task, o: DeleteOutcome) returns (ok: bool)
      requires db.Tidy()
      modifies this, db
      ensures db.Tidy() && db.backend.Memory? == old(db.backend.Memory?)
      ensures db.contents == if ValidStateTransition(t.state, Stopping)
                             then old(db.contents)[t.id := StopResult(AsStopping(t), o)] else old(db.contents)
      ensures ok <==> ValidStateTransition(t.state, Stopping) && o.Deleted?
      ensures workers == if ok then old(workers) - {t.containerId} else old(workers)
      ensures fresh(db.Repr - old(db.Repr))
      ensures AfterStop(old(db.contents), t, o, db.contents)
    {
      StopHasOutcome(db.contents, t, o);
      if !ValidStateTransition(t.state, Stopping) {
        return false;
      }
      var c := new TaskCell(t.id, AsStopping(t));
      db.Put(t.id, c);
      assert c.v == AsStopping(t) && c.v.id == t.id;
      ok := DeleteSandbox(c, o);
      assert db.contents == old(db.contents)[t.id := StopResult(AsStopping(t), o)];
    }

    /** The status that an output gives a task. */
    method NextStatus(task: Task, o: Output) returns (t: Task)
      requires Recognised(o)
      ensures t == Updated(task, o)
    {
      t := task;
      if o.state == "running" {
        if ValidStateTransition(t.state, Running) {
          t := t.(state := Running);
        }
      } else if o.state == "completed" {
        if ValidStateTransition(t.state, Completed) {
          t := t.(state := Completed, finishTime := Some(o.now));
        }
      } else {
        if ValidStateTransition(t.state, Failed) {
          t := t.(state := Failed);
        }
      }
      t := t.(message := Reported(o.errorMsg));
      if o.exitCode != 0 {
        t := t.(exitCode := Some(o.exitCode));
      }
    }

    /** `mid` is what a reader sees before the Put: the new task already, or still the old one. */
    method UpdateTaskStatus(id: Id, o: Output) returns (ghost mid: Db)
      requires db.Tidy()
      modifies db, db.Repr
      ensures db.Tidy() && db.backend.Memory? == old(db.backend.Memory?)
      ensures db.contents == if id in old(db.contents)
                             then old(db.contents)[id := Updated(old(db.contents)[id], o)] else old(db.contents)
      ensures mid == if db.backend.Memory? then db.contents else old(db.contents)
      ensures fresh(db.Repr - old(db.Repr))
    {
      mid := db.contents;
      var res := db.Get(id);
      if res.None? || !Recognised(o) {
        return;
      }
      var t := NextStatus(res.value.v, o);
      mid := db.Save(id, res.value, t);
    }

    /** The first listed task that runs in container `containerId`. */
    method FindByContainer(order: seq<Id>, containerId: string) returns (m: Option<TaskCell>)
      requires db.Tidy() && forall id :: id in order ==> id in db.contents && db.contents[id].id == id
      ensures m.Some? <==> FirstMatch(db.contents, order, containerId).Some?
      ensures m.Some? ==> m.value.v == FirstMatch(db.contents, order, containerId).value
      ensures m.Some? ==> m.value.v.id in db.contents && m.value.key == m.value.v.id
      ensures m.Some? ==>
        if db.backend.Memory? then m.value in db.Repr && Holds(db.backend, m.value.key, m.value) else fresh(m.value)
    {
      var tasks := db.List(order);
      for i := 0 to |tasks|
        invariant FirstMatch(db.contents, order, containerId) == FirstMatch(db.contents, order[i..], containerId)
      {
        if tasks[i].v.containerId == containerId {
          return Some(tasks[i]);
        }
        assert order[i..][1..] == order[i + 1..];
      }
      m := None;
    }

    /** From Scheduled over Starting to Running. */
    method StartHealthy(t: Task, c: TaskCell, error: Option<string>) returns (ok: bool)
      requires db.Tidy() && c.v == t && t.state == Scheduled && c.key == t.id
      modifies db, c
      ensures db.Tidy() && db.backend.Memory? == old(db.backend.Memory?)
      ensures db.contents == old(db.contents)[t.id := StartResult(AsStarting(t), error)]
      ensures ok
      ensures fresh(db.Repr - old(db.Repr) - {c})
    {
      ghost var _ := db.Save(t.id, c, AsStarting(t));
      ok := StartTask(c.v, error);
    }

    /** The part of RegisterWorker for `t`, the scheduled task of the worker's container, with its pointer. */
    method Activate(t: Task, c: TaskCell, w: WorkerInstance, error: Option<string>) returns (ok: bool)
      requires db.Tidy() && c.v == t && t.state == Scheduled && c.key == t.id
      modifies db, c
      ensures db.Tidy() && db.backend.Memory? == old(db.backend.Memory?)
      ensures db.contents == old(db.contents)[t.id := RegisterResult(t, w, error)]
      ensures ok <==> w.isHealthy
      ensures fresh(db.Repr - old(db.Repr) - {c})
    {
      if !w.isHealthy {
        FailTask(t, WorkerNotHealthy);
        return false;
      }
      ok := StartHealthy(t, c, error);
    }

    method RegisterWorker(w: WorkerInstance, order: seq<Id>, error: Option<string>) returns (ok: bool)
      requires db.Tidy() && forall id :: id in order ==> id in db.contents && db.contents[id].id == id
      modifies this, db, db.Repr
      ensures db.Tidy() && db.backend.Memory? == old(db.backend.Memory?)
      ensures workers == old(workers)[w.id := w]
      ensures var m := FirstMatch(old(db.contents), order, w.id);
        db.contents == if m.Some? && m.value.state == Scheduled
                       then old(db.contents)[m.value.id := RegisterResult(m.value, w, error)] else old(db.contents)
      ensures var m := FirstMatch(old(db.contents), order, w.id);
        ok <==> w.isHealthy || m.None? || m.value.state != Scheduled
      ensures fresh(db.Repr - old(db.Repr))
    {
      workers := workers[w.id := w];
      var m := FindByContainer(order, w.id);
      if m.None? || m.value.v.state != Scheduled {
        return true;
      }
      ok := Activate(m.value.v, m.value, w, error);
    }

    /** Carries out one operation of a serial run: its effect is that of its writes. */
    method Perform(op: Op)
      requires db.Tidy() && Quiescent(db.contents) && Legal(db.contents, op)
      modifies this, db, db.Repr
      ensures db.Tidy() && db.backend.Memory? == old(db.backend.Memory?)
      ensures db.contents == Puts(old(db.contents), Writes(old(db.contents), op))
      ensures fresh(db.Repr - old(db.Repr))
      ensures AfterOp(old(db.contents), op, db.contents)
    {
      OpHasOutcome(db.contents, op);
      match op {
        case CreateContainer(t, o) =>
          CreateEffect(db.contents, t, o);
          var _, _ := CreateContainer(t, o);
        case RegisterWorker(w, order, error) =>
          RegisterEffect(db.contents, w, order, error);
          var _ := RegisterWorker(w, order, error);
        case StartTask(t, error) =>
          StartEffect(db.contents, t, error);
          var _ := StartTask(t, error);
        case StopTask(t, o) =>
          StopEffect(db.contents, t, o);
          var _ := StopTask(t, o);
        case UpdateTaskStatus(id, o) =>
          if id in db.contents {
            UpdateEffect(db.contents, id, o);
          }
          ghost var _ := UpdateTaskStatus(id, o);
        case FailTask(t, msg) =>
          OpEffect(db.contents, op);
          FailTask(t, Reported(msg));
      }
    }

    method PerformAll(ops: seq<Op>)
      requires db.Tidy() && Quiescent(db.contents) && LegalRun(db.contents, ops)
      modifies this, db, db.Repr
      ensures db.Tidy() && db.backend.Memory? == old(db.backend.Memory?)
      ensures db.contents == RunDb(old(db.contents), ops)
      ensures fresh(db.Repr - old(db.Repr))
    {
      for i := 0 to |ops|
        invariant db.Tidy() && db.backend.Memory? == old(db.backend.Memory?)
        invariant fresh(db.Repr - old(db.Repr))
        invariant Quiescent(db.contents) && LegalRun(db.contents, ops[i..])
        invariant RunDb(db.contents, ops[i..]) == RunDb(old(db.contents), ops)
      {
        assert ops[i..][0] == ops[i] && ops[i..][1..] == ops[i + 1..];
        OpEffect(db.contents, ops[i]);
        Perform(ops[i]);
      }
    }

    /** Handles the outputs that arrive before the stream closes or the deadline passes. */
    method ProcessTaskOutput(id: Id, outputs: seq<Output>)
      requires db.Tidy()
      modifies db, db.Repr
      ensures db.Tidy() && db.backend.Memory? == old(db.backend.Memory?)
      ensures db.contents == if id in old(db.contents)
                             then old(db.contents)[id := UpdatedBy(old(db.contents)[id], outputs)] else old(db.contents)
      ensures fresh(db.Repr - old(db.Repr))
    {
      ghost var before := db.contents;
      ghost var t: Option<Task> := if id in before then Some(before[id]) else None;
      for i := 0 to |outputs|
        invariant db.Tidy() && db.backend.Memory? == old(db.backend.Memory?)
        invariant fresh(db.Repr - old(db.Repr))
        invariant t.Some? <==> id in before
        invariant db.contents == if t.Some? then before[id := t.value] else before
        invariant t.Some? ==> UpdatedBy(t.value, outputs[i..]) == UpdatedBy(before[id], outputs)
      {
        assert outputs[i..][0] == outputs[i] && outputs[i..][1..] == outputs[i + 1..];
        ghost var _ := UpdateTaskStatus(id, outputs[i]);
        t := if t.Some? then Some(Updated(t.value, outputs[i])) else None;
      }
    }

    /** StartTask with its two goroutines, until the stream ends: in either store the task ends as its outputs say,
        or failed if the command could not be sent; after that error there are no outputs. */
    method RunCommand(t: Task, x: OutputStream.Execution)
      requires db.Tidy() && ValidStateTransition(t.state, Running)
      modifies db, db.Repr
      ensures db.Tidy() && db.backend.Memory? == old(db.backend.Memory?)
      ensures db.contents == old(db.contents)[t.id :=
        if x.Receiving? then UpdatedBy(AsRunning(t), OutputStream.Forwarded(x.events, x.patience))
        else AsFailed(AsRunning(t), Reported(x.msg))]
    {
      var _ := StartTask(t, OutputStream.Error(x));
      ProcessTaskOutput(t.id, OutputStream.Outputs(x));
    }
  }

  /** The pointer-sharing and the copying store, each listing in an order of its own, hold what the specification
      says after every serial run, and so agree whenever their listings do. */
  method StoresAgree(ops: seq<Op>, others: seq<Op>) returns (shared: Store, copied: Store)
    requires LegalRun(map[], ops) && LegalRun(map[], others) && SameButOrders(ops, others)
    ensures shared.backend.Memory? && copied.backend.Persistent?
    ensures shared.contents == RunDb(map[], ops) && copied.contents == RunDb(map[], others)
    ensures SameFinds(map[], ops, others) ==> shared.contents == copied.contents
  {
    shared := new Store(true, map[]);
    copied := new Store(false, map[]);
    var a := new WorkerService(shared);
    var b := new WorkerService(copied);
    a.PerformAll(ops);
    b.PerformAll(others);
    StoresAgreeExactlyWhen(map[], ops, others);
    if SameFinds(map[], ops, others) {
      InStepEndsEqual(map[], map[], ops, others);
    }
  }
}
