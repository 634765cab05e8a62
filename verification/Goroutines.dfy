/** The worker's goroutines over either store, in atomic steps.

    Every operation works on a variable.  A check reads the state of the variable, an assignment writes it, a Put
    publishes it, and failTask and StartTask work on a copy; between any two of these the others may run.  The
    in-memory store keeps and hands out the variables themselves, the persistent one keeps and hands out copies. */
module Goroutines {
  import opened TaskState
  import opened Tasks
  import opened Dispatcher

  type Ref = nat

  /** A task variable, as far as it matters here. */
  datatype Cell = Cell(id: Id, state: State)

  /** What an operation is about to do; each stage but the third ends with one Put. */
  datatype Stage =
    | ToCreating              // createContainer, first part
    | ToScheduled             // createContainer, second part
    | Found(healthy: bool)    // RegisterWorker, which has listed the tasks and found this one in its container
    | ToStarting              // RegisterWorker
    | ToRunning               // StartTask
    | ToStopping              // StopTask, first part
    | ToCompleted             // StopTask, second part
    | ToFailed                // failTask, on a copy of its own
    | Follow(target: State)   // updateTaskStatus

  /** Where a stage stands, with the state that its check has read. */
  datatype Step = Guard | Copy | Assign(seen: State) | Publish(seen: State) | After | Over

  datatype Thread = Thread(stage: Stage, r: Ref, step: Step)

  /** A runTask goroutine, by its ticket, or any other operation. */
  datatype Tid = Runner(k: Ticket) | Caller(n: nat)

  datatype World = World(
    shared: bool,
    d: Dispatch,
    cells: seq<Cell>,
    db: map<Id, Ref>,
    threads: map<Tid, Thread>,
    started: set<Id>,       // tasks whose command was sent, so that outputs can arrive
    shown: set<Cell>,       // history: tasks that the store showed to callers
    marked: set<Id>)        // history: tasks that createContainer moved to Scheduled, as the store shows it

  datatype Call =
    | Register(id: Id, healthy: bool)   // RegisterWorker lists the tasks and finds this one in its container
    | Start(t: Cell)
    | Stop(t: Cell)
    | Fail(t: Cell)
    | Update(id: Id, target: State)

  datatype Event =
    | Dispatching(a: Action)
    | Look(id: Id)                  // a caller gets a stored task
    | Begin(n: nat, call: Call)     // under a number of its own
    | Go(tid: Tid)                  // the next check, copy, assignment or Put
    | Continue(tid: Tid, ok: bool)  // after a Put: what sandbox, or client, say

  function InitialWorld(shared: bool): World {
    World(shared, INITIAL, [], map[], map[], {}, {}, {})
  }

  function Goal(s: Stage): State {
    match s
    case ToCreating => Creating
    case ToScheduled => Scheduled
    case Found(_) => Scheduled
    case ToStarting => Starting
    case ToRunning => Running
    case ToStopping => Stopping
    case ToCompleted => Completed
    case ToFailed => Failed
    case Follow(target) => target
  }

  /** References lead somewhere, keys to their own tasks, and exactly the live goroutines of the dispatcher run. */
  ghost predicate Sane(w: World) {
    && (forall id :: id in w.db ==> w.db[id] < |w.cells| && w.cells[w.db[id]].id == id)
    && (forall tid :: tid in w.threads ==> w.threads[tid].r < |w.cells|)
    && (forall k :: k in w.d.running <==> Runner(k) in w.threads)
  }

  ghost predicate CanHappen(c: Config, w: World, e: Event)
    requires Sane(w)
  {
    match e
    case Dispatching(a) =>
      && Enabled(c, w.d, a)
      && (a.Launch? ==> w.d.phase.k < |w.d.accepted|)
      && (a.Release? ==> Runner(a.k) in w.threads && w.threads[Runner(a.k)].step == Over)
    case Look(id) => id in w.db
    case Begin(n, call) =>
      Caller(n) !in w.threads &&
      (match call
       case Register(id, _) => id in w.db
       case Update(id, target) => id in w.started && id in w.db && target in {Running, Completed, Failed}
       case _ => true)
    case Go(tid) => tid in w.threads && !w.threads[tid].step.After? && !w.threads[tid].step.Over?
    case Continue(tid, _) => tid in w.threads && w.threads[tid].step.After?
  }

  function WithThread(w: World, tid: Tid, th: Thread): World {
    w.(threads := w.threads[tid := th])
  }

  /** The operation goes on with a new variable that holds `t`. */
  function OnCopy(w: World, tid: Tid, stage: Stage, t: Cell): World {
    w.(cells := w.cells + [t], threads := w.threads[tid := Thread(stage, |w.cells|, Guard)])
  }

  /** The operation works on what Get or List returned for `id`. */
  function OnFetched(w: World, tid: Tid, stage: Stage, id: Id): World
    requires id in w.db && w.db[id] < |w.cells|
  {
    if w.shared then WithThread(w, tid, Thread(stage, w.db[id], Guard)) else OnCopy(w, tid, stage, w.cells[w.db[id]])
  }

  function FirstStage(call: Call): Stage {
    match call
    case Register(_, healthy) => Found(healthy)
    case Start(_) => ToRunning
    case Stop(_) => ToStopping
    case Fail(_) => ToFailed
    case Update(_, target) => Follow(target)
  }

  /** The operation works on what the store returns; otherwise on a copy of what the caller hands in. */
  predicate Fetches(call: Call) {
    call.Register? || call.Update?
  }

  function Called(w: World, n: nat, call: Call): World
    requires Fetches(call) ==> call.id in w.db && w.db[call.id] < |w.cells|
  {
    if Fetches(call) then OnFetched(w, Caller(n), FirstStage(call), call.id)
    else OnCopy(w, Caller(n), FirstStage(call), call.t)
  }

  predicate FailsIfRefused(s: Stage) {
    s.ToScheduled? || s.ToStarting? || s.ToRunning? || s.ToCompleted?
  }

  /** The check of `th`, whose variable is in state `seen`: what it reads decides, and is remembered. */
  function Check(th: Thread, seen: State): Thread {
    if th.stage.Found? then
      if seen != Scheduled then th.(step := Over)
      else if th.stage.healthy then Thread(ToStarting, th.r, Guard)
      else Thread(ToFailed, th.r, Copy)
    else if ValidStateTransition(seen, Goal(th.stage)) then th.(step := Assign(seen))
    else if FailsIfRefused(th.stage) then Thread(ToFailed, th.r, Copy)
    else if th.stage.Follow? then th.(step := Publish(seen))
    else th.(step := Over)
  }

  function Checked(w: World, tid: Tid): World
    requires tid in w.threads && w.threads[tid].r < |w.cells|
  {
    WithThread(w, tid, Check(w.threads[tid], w.cells[w.threads[tid].r].state))
  }

  function Copied(w: World, tid: Tid): World
    requires tid in w.threads && w.threads[tid].r < |w.cells|
  {
    OnCopy(w, tid, w.threads[tid].stage, w.cells[w.threads[tid].r])
  }

  function Assigned(w: World, tid: Tid): World
    requires tid in w.threads && w.threads[tid].r < |w.cells| && w.threads[tid].step.Assign?
  {
    var th := w.threads[tid];
    var t := w.cells[th.r].(state := Goal(th.stage));
    w.(cells := w.cells[th.r := t],
       threads := w.threads[tid := th.(step := Publish(th.step.seen))],
       marked := if th.stage.ToScheduled? && w.shared then w.marked + {t.id} else w.marked)
  }

  function Published(w: World, tid: Tid): World
    requires tid in w.threads && w.threads[tid].r < |w.cells|
  {
    var th := w.threads[tid];
    var t := w.cells[th.r];
    WithThread(
      if w.shared then w.(db := w.db[t.id := th.r]) else w.(db := w.db[t.id := |w.cells|], cells := w.cells + [t]),
      tid, th.(step := After)).(marked := if th.stage.ToScheduled? then w.marked + {t.id} else w.marked)
  }

  /** After the Put of a stage. */
  function Continued(w: World, tid: Tid, ok: bool): World
    requires tid in w.threads && w.threads[tid].r < |w.cells|
  {
    var th := w.threads[tid];
    if th.stage.ToStarting? then OnCopy(w, tid, ToRunning, w.cells[th.r])
    else if !ok && (th.stage.ToCreating? || th.stage.ToRunning? || th.stage.ToStopping?) then
      OnCopy(w, tid, ToFailed, w.cells[th.r])
    else if th.stage.ToCreating? then WithThread(w, tid, Thread(ToScheduled, th.r, Guard))
    else if th.stage.ToStopping? then WithThread(w, tid, Thread(ToCompleted, th.r, Guard))
    else if th.stage.ToRunning? then
      WithThread(w, tid, th.(step := Over)).(started := w.started + {w.cells[th.r].id})
    else WithThread(w, tid, th.(step := Over))
  }

  function Dispatched(c: Config, w: World, a: Action): World
    requires Enabled(c, w.d, a) && (a.Launch? ==> w.d.phase.k < |w.d.accepted|)
  {
    var w' := w.(d := Apply(c, w.d, a));
    match a
    case Launch =>
      var t := w.d.accepted[w.d.phase.k];
      OnCopy(w', Runner(w.d.phase.k), ToCreating, Cell(t.id, t.state))
    case Release(k) => w'.(threads := w.threads - {Runner(k)})
    case _ => w'
  }

  ghost predicate Possible(c: Config, w: World, e: Event) {
    Sane(w) && CanHappen(c, w, e)
  }

  /** The world after a possible step; nothing else ever happens. */
  ghost function Happen(c: Config, w: World, e: Event): World {
    if !Possible(c, w, e) then w
    else
      match e
      case Dispatching(a) => Dispatched(c, w, a)
      case Look(id) => w.(shown := w.shown + {w.cells[w.db[id]]})
      case Begin(n, call) => Called(w, n, call)
      case Go(tid) =>
        (match w.threads[tid].step
         case Guard => Checked(w, tid)
         case Copy => Copied(w, tid)
         case Assign(_) => Assigned(w, tid)
         case _ => Published(w, tid))
      case Continue(tid, ok) => Continued(w, tid, ok)
  }

  // ---------------------------------------------------------------- sanity

  /** Every step of the joint system is a step of the dispatcher, or leaves it alone. */
  lemma RefinesDispatcher(c: Config, w: World, e: Event)
    requires Possible(c, w, e)
    ensures var w' := Happen(c, w, e);
      if e.Dispatching? then Enabled(c, w.d, e.a) && w'.d == Apply(c, w.d, e.a) else w'.d == w.d
  {
  }

  lemma OnCopyIsSane(w: World, tid: Tid, stage: Stage, t: Cell)
    requires Sane(w) && (tid in w.threads || tid.Caller?)
    ensures Sane(OnCopy(w, tid, stage, t))
  {
  }

  lemma WithThreadIsSane(w: World, tid: Tid, th: Thread)
    requires Sane(w) && tid in w.threads && th.r < |w.cells|
    ensures Sane(WithThread(w, tid, th))
  {
  }

  lemma CheckIsSane(w: World, tid: Tid)
    requires Sane(w) && tid in w.threads
    ensures Sane(Checked(w, tid)) && Sane(Copied(w, tid))
  {
    var th := w.threads[tid];
    OnCopyIsSane(w, tid, th.stage, w.cells[th.r]);
    WithThreadIsSane(w, tid, Check(th, w.cells[th.r].state));
  }

  lemma AssignIsSane(w: World, tid: Tid)
    requires Sane(w) && tid in w.threads && w.threads[tid].step.Assign?
    ensures Sane(Assigned(w, tid))
  {
  }

  lemma PublishIsSane(w: World, tid: Tid)
    requires Sane(w) && tid in w.threads
    ensures Sane(Published(w, tid))
  {
  }

  lemma ContinueIsSane(w: World, tid: Tid, ok: bool)
    requires Sane(w) && tid in w.threads
    ensures Sane(Continued(w, tid, ok))
  {
    var th := w.threads[tid];
    OnCopyIsSane(w, tid, ToFailed, w.cells[th.r]);
    OnCopyIsSane(w, tid, ToRunning, w.cells[th.r]);
    WithThreadIsSane(w, tid, Thread(ToScheduled, th.r, Guard));
    WithThreadIsSane(w, tid, Thread(ToCompleted, th.r, Guard));
    WithThreadIsSane(w, tid, th.(step := Over));
  }

  lemma CallIsSane(w: World, n: nat, call: Call)
    requires Sane(w) && (Fetches(call) ==> call.id in w.db)
    ensures Sane(Called(w, n, call))
  {
  }

  lemma DispatchIsSane(c: Config, w: World, a: Action)
    requires Sane(w) && Enabled(c, w.d, a) && (a.Launch? ==> w.d.phase.k < |w.d.accepted|)
    ensures Sane(Dispatched(c, w, a))
  {
  }

  lemma StepIsSane(c: Config, w: World, e: Event)
    requires Possible(c, w, e)
    ensures Sane(Happen(c, w, e))
  {
    match e {
      case Dispatching(a) => DispatchIsSane(c, w, a);
      case Look(_) =>
      case Begin(n, call) => CallIsSane(w, n, call);
      case Go(tid) =>
        match w.threads[tid].step {
          case Guard => CheckIsSane(w, tid);
          case Copy => CheckIsSane(w, tid);
          case Assign(_) => AssignIsSane(w, tid);
          case _ => PublishIsSane(w, tid);
        }
      case Continue(tid, ok) => ContinueIsSane(w, tid, ok);
    }
  }

  // ---------------------------------------------------------------- runs

  ghost predicate ValidRun(c: Config, w: World, es: seq<Event>)
    decreases |es|
  {
    es == [] || (Possible(c, w, es[0]) && ValidRun(c, Happen(c, w, es[0]), es[1..]))
  }

  ghost function Run(c: Config, w: World, es: seq<Event>): World
    decreases |es|
  {
    if es == [] then w else Run(c, Happen(c, w, es[0]), es[1..])
  }

  lemma {:induction false} RunIsSane(c: Config, w: World, es: seq<Event>)
    requires Sane(w) && ValidRun(c, w, es)
    ensures Sane(Run(c, w, es))
    decreases |es|
  {
    if es != [] {
      StepIsSane(c, w, es[0]);
      RunIsSane(c, Happen(c, w, es[0]), es[1..]);
    }
  }

  lemma Prepend(c: Config, w: World, e: Event, es: seq<Event>)
    requires Possible(c, w, e) && ValidRun(c, Happen(c, w, e), es)
    ensures ValidRun(c, w, [e] + es) && Run(c, w, [e] + es) == Run(c, Happen(c, w, e), es)
  {
    assert ([e] + es)[1..] == es;
  }

  lemma HeadFirst<T>(es: seq<T>, fs: seq<T>)
    requires es != []
    ensures [es[0]] + (es[1..] + fs) == es + fs
  {
  }

  lemma {:induction false} Concat(c: Config, w: World, es: seq<Event>, fs: seq<Event>)
    requires ValidRun(c, w, es) && ValidRun(c, Run(c, w, es), fs)
    ensures ValidRun(c, w, es + fs) && Run(c, w, es + fs) == Run(c, Run(c, w, es), fs)
    decreases |es|
  {
    if es == [] {
      assert es + fs == fs;
    } else {
      Concat(c, Happen(c, w, es[0]), es[1..], fs);
      Prepend(c, w, es[0], es[1..] + fs);
      HeadFirst(es, fs);
    }
  }
}
