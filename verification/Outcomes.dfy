/** What each operation of the worker leaves in the store, field by field, in terms of the task that it is given. */
module Outcomes {
  import opened TaskState
  import opened Tasks
  import opened WorkerSpec
  import opened WorkerRuns

  predicate IsFailed(t: Task, msg: Message, u: Task) {
    u == t.(state := Failed, message := msg)
  }

  /** Scheduled with the container, exactly if it was created; otherwise failed with what the sandbox said. */
  predicate IsCreated(t: Task, o: CreateOutcome, u: Task) {
    && u == t.(state := u.state, network := u.network, containerId := u.containerId, message := u.message)
    && (u.state == Scheduled <==> o.Created?) && (u.state == Failed <==> !o.Created?)
    && u.containerId == (if o.Created? then o.containerId else t.containerId)
    && u.network == (if o.NoService? then t.network else o.network)
    && u.message == (if o.Created? then ContainerCreated else Reported(o.msg))
  }

  /** Running, exactly if the command could be sent; otherwise failed with the error. */
  predicate IsStarted(t: Task, error: Option<string>, u: Task) {
    && u == t.(state := u.state, message := u.message)
    && (u.state == Running <==> error.None?) && (u.state == Failed <==> error.Some?)
    && u.message == (if error.None? then ExecutingCommand else Reported(error.value))
  }

  /** Completed with the time of the deletion, exactly if the sandbox was deleted; otherwise failed with the reason,
      and with the finish time it had. */
  predicate IsStopped(t: Task, o: DeleteOutcome, u: Task) {
    && u == t.(state := u.state, finishTime := u.finishTime, message := u.message)
    && (u.state == Completed <==> o.Deleted?) && (u.state == Failed <==> !o.Deleted?)
    && u.finishTime == (if o.Deleted? then Some(o.now) else t.finishTime)
    && u.message == (if o.Deleted? then ContainerStopped else Reported(o.msg))
  }

  /** The text always, a code other than 0, and the state if there is a way to it. */
  predicate IsUpdated(t: Task, o: Output, u: Task) {
    && u == t.(state := u.state, finishTime := u.finishTime, message := u.message, exitCode := u.exitCode)
    && u.message == Reported(o.errorMsg)
    && u.exitCode == (if o.exitCode == 0 then t.exitCode else Some(o.exitCode))
    && u.finishTime == (if u.state == Completed && t.state != Completed then Some(o.now) else t.finishTime)
    && u.state ==
         if o.state == "running" && t.state in {Starting, Running} then Running
         else if o.state == "completed" && t.state in {Running, Stopping} then Completed
         else if o.state == "failed" && t.state in {Creating, Scheduled, Starting, Running, Stopping} then Failed
         else t.state
  }

  /** Nothing changes but the task stored under `id`, which is there afterwards. */
  predicate OnlyAt(db: Db, db': Db, id: Id) {
    id in db' && db' == db[id := db'[id]]
  }

  predicate AfterCreate(db: Db, t: Task, o: CreateOutcome, db': Db) {
    if t.state in {Pending, Creating} then OnlyAt(db, db', t.id) && IsCreated(t, o, db'[t.id]) else db' == db
  }

  predicate AfterStart(db: Db, t: Task, error: Option<string>, db': Db) {
    if t.state in {Starting, Running} then OnlyAt(db, db', t.id) && IsStarted(t, error, db'[t.id])
    else if t.state in {Creating, Scheduled, Stopping} then
      OnlyAt(db, db', t.id) && IsFailed(t, NoTransition(t.state, Running), db'[t.id])
    else db' == db
  }

  predicate AfterStop(db: Db, t: Task, o: DeleteOutcome, db': Db) {
    if t.state in {Running, Stopping} then OnlyAt(db, db', t.id) && IsStopped(t, o, db'[t.id]) else db' == db
  }

  predicate AfterFail(db: Db, t: Task, msg: Message, db': Db) {
    if t.state in {Creating, Scheduled, Starting, Running, Stopping} then
      OnlyAt(db, db', t.id) && IsFailed(t, msg, db'[t.id])
    else db' == db
  }

  predicate AfterUpdate(db: Db, id: Id, o: Output, db': Db) {
    if id in db && o.state in ["running", "completed", "failed"] then
      OnlyAt(db, db', id) && IsUpdated(db[id], o, db'[id])
    else db' == db
  }

  /** `order[i]` is the first listed task of the container. */
  predicate FirstAt(db: Db, order: seq<Id>, containerId: string, i: nat) {
    && i < |order| && order[i] in db && db[order[i]].containerId == containerId
    && forall j :: 0 <= j < i && order[j] in db ==> db[order[j]].containerId != containerId
  }

  /** A registration goes on with the first listed task of the container if that is Scheduled: it starts, or fails if
      the worker is not healthy.  Otherwise nothing changes. */
  ghost predicate AfterRegister(db: Db, w: WorkerInstance, order: seq<Id>, error: Option<string>, db': Db) {
    && (forall i: nat :: FirstAt(db, order, w.id, i) ==>
          var t := db[order[i]];
          if t.state != Scheduled then db' == db
          else
            && OnlyAt(db, db', t.id)
            && if w.isHealthy then IsStarted(t, error, db'[t.id]) else IsFailed(t, WorkerNotHealthy, db'[t.id]))
    && ((forall id :: id in order && id in db ==> db[id].containerId != w.id) ==> db' == db)
  }

  ghost predicate AfterOp(db: Db, op: Op, db': Db) {
    match op
    case CreateContainer(t, o) => AfterCreate(db, t, o, db')
    case RegisterWorker(w, order, error) => AfterRegister(db, w, order, error, db')
    case StartTask(t, error) => AfterStart(db, t, error, db')
    case StopTask(t, o) => AfterStop(db, t, o, db')
    case UpdateTaskStatus(id, output) => AfterUpdate(db, id, output, db')
    case FailTask(t, msg) => AfterFail(db, t, Reported(msg), db')
  }

  lemma {:induction false} MatchIsFirst(db: Db, order: seq<Id>, containerId: string, i: nat)
    requires FirstAt(db, order, containerId, i)
    ensures FirstMatch(db, order, containerId) == Some(db[order[i]])
    decreases |order|
  {
    if i > 0 {
      assert forall j :: 0 <= j < |order| - 1 ==> order[1..][j] == order[j + 1];
      MatchIsFirst(db, order[1..], containerId, i - 1);
    }
  }

  lemma CreatedIsCreated(t: Task, o: CreateOutcome)
    ensures IsCreated(t, o, CreateResult(AsCreating(t), o))
  {
  }

  lemma CreateHasOutcome(db: Db, t: Task, o: CreateOutcome)
    ensures AfterCreate(db, t, o, if ValidStateTransition(t.state, Creating)
                                  then db[t.id := CreateResult(AsCreating(t), o)] else db)
  {
    CreatedIsCreated(t, o);
  }

  lemma StartedIsStarted(t: Task, error: Option<string>)
    ensures IsStarted(t, error, StartResult(t, error))
  {
  }

  lemma StartHasOutcome(db: Db, t: Task, error: Option<string>)
    ensures AfterStart(db, t, error,
      if ValidStateTransition(t.state, Running) then db[t.id := StartResult(t, error)]
      else if ValidStateTransition(t.state, Failed) then db[t.id := AsFailed(t, NoTransition(t.state, Running))]
      else db)
  {
    StartedIsStarted(t, error);
  }

  lemma StoppedIsStopped(t: Task, o: DeleteOutcome)
    ensures IsStopped(t, o, StopResult(AsStopping(t), o))
  {
  }

  lemma StopHasOutcome(db: Db, t: Task, o: DeleteOutcome)
    ensures AfterStop(db, t, o, if ValidStateTransition(t.state, Stopping)
                                then db[t.id := StopResult(AsStopping(t), o)] else db)
  {
    StoppedIsStopped(t, o);
  }

  lemma FailHasOutcome(db: Db, t: Task, msg: Message)
    ensures AfterFail(db, t, msg, if ValidStateTransition(t.state, Failed) then db[t.id := AsFailed(t, msg)] else db)
  {
  }

  lemma UpdatedIsUpdated(t: Task, o: Output)
    requires o.state in ["running", "completed", "failed"]
    ensures IsUpdated(t, o, Updated(t, o))
  {
  }

  lemma UpdateHasOutcome(db: Db, id: Id, o: Output)
    ensures AfterUpdate(db, id, o, if id in db then db[id := Updated(db[id], o)] else db)
  {
    if id in db {
      if o.state in ["running", "completed", "failed"] {
        UpdatedIsUpdated(db[id], o);
      } else {
        assert db[id := db[id]] == db;
      }
    }
  }

  lemma RegisteredIs(t: Task, w: WorkerInstance, error: Option<string>)
    ensures var u := RegisterResult(t, w, error);
      if w.isHealthy then IsStarted(t, error, u) else IsFailed(t, WorkerNotHealthy, u)
  {
  }

  lemma RegisterHasOutcome(db: Db, w: WorkerInstance, order: seq<Id>, error: Option<string>)
    requires forall id :: id in order && id in db ==> db[id].id == id
    ensures var m := FirstMatch(db, order, w.id);
      AfterRegister(db, w, order, error,
        if m.Some? && m.value.state == Scheduled then db[m.value.id := RegisterResult(m.value, w, error)] else db)
  {
    var m := FirstMatch(db, order, w.id);
    forall i: nat | FirstAt(db, order, w.id, i) ensures m == Some(db[order[i]]) && db[order[i]].id == order[i] {
      MatchIsFirst(db, order, w.id, i);
    }
    if m.Some? {
      RegisteredIs(m.value, w, error);
    }
  }

  /** Every operation has its outcome. */
  lemma OpHasOutcome(db: Db, op: Op)
    requires Quiescent(db) && Legal(db, op)
    ensures AfterOp(db, op, Puts(db, Writes(db, op)))
  {
    match op {
      case CreateContainer(t, o) =>
        CreateEffect(db, t, o);
        CreateHasOutcome(db, t, o);
      case RegisterWorker(w, order, error) =>
        RegisterEffect(db, w, order, error);
        RegisterHasOutcome(db, w, order, error);
      case StartTask(t, error) =>
        StartEffect(db, t, error);
        StartHasOutcome(db, t, error);
      case StopTask(t, o) =>
        StopEffect(db, t, o);
        StopHasOutcome(db, t, o);
      case UpdateTaskStatus(id, o) =>
        if id in db {
          UpdateEffect(db, id, o);
        }
        UpdateHasOutcome(db, id, o);
      case FailTask(t, msg) =>
        OpEffect(db, op);
        FailHasOutcome(db, t, Reported(msg));
    }
  }

  /** What is stored on the way, before the outcome. */
  predicate OnTheWay(db: Db, op: Op, ws: seq<Task>) {
    match op
    case CreateContainer(t, _) => ws != [] ==> |ws| == 2 && ws[0] == t.(state := Creating)
    case StopTask(t, _) => ws != [] ==> |ws| == 2 && ws[0] == t.(state := Stopping, message := StoppingContainer)
    case StartTask(t, error) =>
      |ws| > 1 ==> |ws| == 2 && error.Some? && ws[0] == t.(state := Running, message := ExecutingCommand)
    case RegisterWorker(w, order, error) =>
      |ws| > 1 ==>
        && w.isHealthy && |ws| == (if error.Some? then 3 else 2) && FirstMatch(db, order, w.id).Some?
        && ws[0] == FirstMatch(db, order, w.id).value.(state := Starting, message := WorkerHealthy)
        && ws[1] == ws[0].(state := Running, message := ExecutingCommand)
    case UpdateTaskStatus(_, _) => |ws| <= 1
    case FailTask(_, _) => |ws| <= 1
  }

  lemma OpIsOnTheWay(db: Db, op: Op)
    ensures OnTheWay(db, op, Writes(db, op))
  {
  }

  // ---------------------------------------------------------------- a stream of outputs

  predicate Counts(o: Output) {
    o.state in ["running", "completed", "failed"]
  }

  /** After a stream of outputs the task has the text of the last one that counts ... */
  lemma {:induction false} LastTextStays(t: Task, outputs: seq<Output>, k: nat)
    requires k < |outputs| && Counts(outputs[k]) && forall i :: k < i < |outputs| ==> !Counts(outputs[i])
    ensures UpdatedBy(t, outputs).message == Reported(outputs[k].errorMsg)
    decreases |outputs|
  {
    var next, rest := Updated(t, outputs[0]), outputs[1..];
    assert forall i :: 0 <= i < |rest| ==> rest[i] == outputs[i + 1];
    if k > 0 {
      LastTextStays(next, rest, k - 1);
    } else {
      NoneCounts(next, rest);
    }
  }

  /** ... the code of the last one that counts and has a code other than 0 ... */
  lemma {:induction false} LastCodeStays(t: Task, outputs: seq<Output>, k: nat)
    requires k < |outputs| && Counts(outputs[k]) && outputs[k].exitCode != 0
    requires forall i :: k < i < |outputs| && Counts(outputs[i]) ==> outputs[i].exitCode == 0
    ensures UpdatedBy(t, outputs).exitCode == Some(outputs[k].exitCode)
    decreases |outputs|
  {
    var next, rest := Updated(t, outputs[0]), outputs[1..];
    assert forall i :: 0 <= i < |rest| ==> rest[i] == outputs[i + 1];
    if k > 0 {
      LastCodeStays(next, rest, k - 1);
    } else {
      NoCode(next, rest);
    }
  }

  /** ... and its own ones, if there are none. */
  lemma {:induction false} NoneCounts(t: Task, outputs: seq<Output>)
    requires forall i :: 0 <= i < |outputs| ==> !Counts(outputs[i])
    ensures UpdatedBy(t, outputs) == t
    decreases |outputs|
  {
    if outputs != [] {
      assert !Counts(outputs[0]);
      NoneCounts(Updated(t, outputs[0]), outputs[1..]);
    }
  }

  lemma {:induction false} NoCode(t: Task, outputs: seq<Output>)
    requires forall i :: 0 <= i < |outputs| && Counts(outputs[i]) ==> outputs[i].exitCode == 0
    ensures UpdatedBy(t, outputs).exitCode == t.exitCode
    decreases |outputs|
  {
    if outputs != [] {
      assert Counts(outputs[0]) ==> outputs[0].exitCode == 0;
      NoCode(Updated(t, outputs[0]), outputs[1..]);
    }
  }
}
