/** The worker's operations on values: which tasks each operation writes to its store, in order. */
module WorkerSpec {
  import opened TaskState
  import opened Tasks

  /** What the sandbox did for createContainer.  A sandbox may rewrite the network configuration even when it
      then fails. */
  datatype CreateOutcome =
    | NoService(msg: string)
    | NotCreated(network: seq<string>, msg: string)
    | Created(network: seq<string>, containerId: string)

  datatype DeleteOutcome =
    | NoDeleteService(msg: string)
    | NotDeleted(msg: string)
    | Deleted(now: Time)

  /** One operation of a serial run.  StartTask, StopTask and failTask get whatever task their caller hands in;
      `order` is the order in which the store happens to list its keys.  `error` says why the command could not
      be sent to its worker, in which case it has no output; otherwise outputs may follow. */
  datatype Op =
    | CreateContainer(t: Task, created: CreateOutcome)
    | RegisterWorker(w: WorkerInstance, order: seq<Id>, error: Option<string>)
    | StartTask(t: Task, error: Option<string>)
    | StopTask(t: Task, deleted: DeleteOutcome)
    | UpdateTaskStatus(id: Id, output: Output)
    | FailTask(t: Task, msg: string)

  function AsFailed(t: Task, msg: Message): Task {
    t.(state := Failed, message := msg)
  }

  function FailWrites(t: Task, msg: Message): seq<Task> {
    if ValidStateTransition(t.state, Failed) then [AsFailed(t, msg)] else []
  }

  function AsCreating(t: Task): Task {
    t.(state := Creating)
  }

  function AsStopping(t: Task): Task {
    t.(state := Stopping, message := StoppingContainer)
  }

  /** How createContainer leaves a task that it has stored as Creating. */
  function CreateResult(t: Task, o: CreateOutcome): Task {
    match o
    case NoService(msg) => AsFailed(t, Reported(msg))
    case NotCreated(network, msg) => AsFailed(t.(network := network), Reported(msg))
    case Created(network, containerId) =>
      t.(network := network, state := Scheduled, containerId := containerId,
         message := ContainerCreated)
  }

  function CreateWrites(t: Task, o: CreateOutcome): seq<Task> {
    if ValidStateTransition(t.state, Creating) then [AsCreating(t), CreateResult(AsCreating(t), o)] else []
  }

  function AsRunning(t: Task): Task {
    t.(state := Running, message := ExecutingCommand)
  }

  /** How StartTask leaves a task that it could start on. */
  function StartResult(t: Task, error: Option<string>): Task {
    if error.Some? then AsFailed(AsRunning(t), Reported(error.value)) else AsRunning(t)
  }

  /** A task whose command could not be sent is stored as Running first and as Failed then. */
  function CommandWrites(t: Task, error: Option<string>): seq<Task> {
    [AsRunning(t)] + if error.Some? then [StartResult(t, error)] else []
  }

  function StartWrites(t: Task, error: Option<string>): seq<Task> {
    if ValidStateTransition(t.state, Running) then CommandWrites(t, error)
    else FailWrites(t, NoTransition(t.state, Running))
  }

  /** The first listed task that runs in container `containerId`. */
  function FirstMatch(db: Db, order: seq<Id>, containerId: string): (m: Option<Task>)
    ensures m.None? <==> forall id :: id in order && id in db ==> db[id].containerId != containerId
    ensures m.Some? ==> exists id :: id in order && id in db && m == Some(db[id]) && db[id].containerId == containerId
  {
    if order == [] then None
    else if order[0] in db && db[order[0]].containerId == containerId then Some(db[order[0]])
    else FirstMatch(db, order[1..], containerId)
  }

  function AsStarting(t: Task): Task {
    t.(state := Starting, message := WorkerHealthy)
  }

  /** How RegisterWorker leaves the scheduled task of its container. */
  function RegisterResult(t: Task, w: WorkerInstance, error: Option<string>): Task {
    if w.isHealthy then StartResult(AsStarting(t), error) else AsFailed(t, WorkerNotHealthy)
  }

  function RegisterWrites(m: Option<Task>, w: WorkerInstance, error: Option<string>): seq<Task> {
    if m.None? || m.value.state != Scheduled then []
    else if w.isHealthy then [AsStarting(m.value)] + CommandWrites(AsStarting(m.value), error)
    else [RegisterResult(m.value, w, error)]
  }

  /** How StopTask leaves a task that it has stored as Stopping. */
  function StopResult(t: Task, o: DeleteOutcome): Task {
    match o
    case NoDeleteService(msg) => AsFailed(t, Reported(msg))
    case NotDeleted(msg) => AsFailed(t, Reported(msg))
    case Deleted(now) => t.(state := Completed, finishTime := Some(now), message := ContainerStopped)
  }

  function StopWrites(t: Task, o: DeleteOutcome): seq<Task> {
    if ValidStateTransition(t.state, Stopping) then [AsStopping(t), StopResult(AsStopping(t), o)] else []
  }

  predicate Recognised(o: Output) {
    o.state == "running" || o.state == "completed" || o.state == "failed"
  }

  /** The task after updateTaskStatus has processed `o`. */
  function Updated(t: Task, o: Output): Task {
    if !Recognised(o) then t else
      var moved :=
        if o.state == "running" && ValidStateTransition(t.state, Running) then t.(state := Running)
        else if o.state == "completed" && ValidStateTransition(t.state, Completed) then
          t.(state := Completed, finishTime := Some(o.now))
        else if o.state == "failed" && ValidStateTransition(t.state, Failed) then t.(state := Failed)
        else t;
      moved.(message := Reported(o.errorMsg), exitCode := if o.exitCode != 0 then Some(o.exitCode) else t.exitCode)
  }

  /** Processing a stream of outputs, oldest first. */
  function UpdatedBy(t: Task, outputs: seq<Output>): Task
    decreases |outputs|
  {
    if outputs == [] then t else UpdatedBy(Updated(t, outputs[0]), outputs[1..])
  }

  /** Outputs touch state, finish time, message and exit code only. */
  lemma {:induction false} UpdatesTouchStatusOnly(t: Task, outputs: seq<Output>)
    ensures var u := UpdatedBy(t, outputs);
      u == t.(state := u.state, finishTime := u.finishTime, message := u.message, exitCode := u.exitCode)
    decreases |outputs|
  {
    if outputs != [] {
      UpdatesTouchStatusOnly(Updated(t, outputs[0]), outputs[1..]);
    }
  }

  function UpdateWrites(t: Task, o: Output): seq<Task> {
    if Recognised(o) then [Updated(t, o)] else []
  }

  /** The store after the given puts, oldest first. */
  function Puts(db: Db, ws: seq<Task>): Db
    decreases |ws|
  {
    if ws == [] then db else Puts(db[ws[0].id := ws[0]], ws[1..])
  }

  /** Of several puts of the same task the last stays. */
  lemma {:induction false} PutsToOneId(db: Db, ws: seq<Task>, id: Id)
    requires ws != [] && forall w :: w in ws ==> w.id == id
    ensures Puts(db, ws) == db[id := ws[|ws| - 1]]
    decreases |ws|
  {
    if |ws| > 1 {
      PutsToOneId(db[id := ws[0]], ws[1..], id);
    }
  }

  /** The task an operation works on. */
  function Subject(db: Db, op: Op): Option<Id> {
    match op
    case RegisterWorker(w, order, _) =>
      var m := FirstMatch(db, order, w.id);
      if m.Some? then Some(m.value.id) else None
    case UpdateTaskStatus(id, _) => Some(id)
    case _ => Some(op.t.id)
  }

  function Writes(db: Db, op: Op): seq<Task> {
    match op
    case CreateContainer(t, o) => CreateWrites(t, o)
    case RegisterWorker(w, order, error) => RegisterWrites(FirstMatch(db, order, w.id), w, error)
    case StartTask(t, error) => StartWrites(t, error)
    case StopTask(t, o) => StopWrites(t, o)
    case UpdateTaskStatus(id, o) => if id in db then UpdateWrites(db[id], o) else []
    case FailTask(t, msg) => FailWrites(t, Reported(msg))
  }
}
