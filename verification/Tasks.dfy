/** The values that travel between manager, worker and stores. */
module Tasks {
  import opened TaskState

  datatype Option<+T> = None | Some(value: T)

  /** A UUID. */
  type Id = nat

  const NIL_ID: Id := 0

  type Time = int

  /** What a status message says.  All but the first stand for a fixed wording of the worker. */
  datatype Message =
    | Reported(text: string)                // by a sandbox, a command, or a caller of failTask
    | ContainerCreated                      // "Container created, waiting for worker registration"
    | WorkerHealthy                         // "Worker is healthy, starting task"
    | WorkerNotHealthy                      // "Worker not healthy"
    | ExecutingCommand                      // "Executing command..."
    | StoppingContainer                     // "Stopping container..."
    | ContainerStopped                      // "Container stopped"
    | NoTransition(src: State, dst: State)  // "invalid transition from <src> to <dst>"

  /** A task: identity, the parts of the specification that are read or written, and status. */
  datatype Task = Task(
    id: Id,
    memory: int,
    disk: int,
    network: seq<string>,
    state: State,
    containerId: string,
    startTime: Option<Time>,
    finishTime: Option<Time>,
    message: Message,
    exitCode: Option<int>,
    restartCount: int)

  datatype TaskEvent = TaskEvent(id: Id, state: State, task: Task)

  /** One message of the output stream of a command, with the time at which it is processed. */
  datatype Output = Output(state: string, exitCode: int, errorMsg: string, now: Time)

  datatype WorkerInstance = WorkerInstance(id: string, isHealthy: bool)

  /** The contents of a task store, as values. */
  type Db = map<Id, Task>

  lemma Associates<T>(a: seq<T>, b: seq<T>, c: seq<T>)
    ensures a + b + c == a + (b + c)
  {
  }
}
