/** The manager as a transition system: its queue, stores and assignment maps. */
module ManagerModel {
  import opened TaskState
  import opened Tasks

  /** What the files of the persistent stores hold when they are opened. */
  datatype Files = Files(tasks: Db, events: map<Id, TaskEvent>)

  const NO_FILES := Files(map[], map[])

  datatype Setup = Setup(workers: seq<string>, memory: bool, files: Files)

  /** Rows are stored under the ids that they carry, as every Put of the manager does it. */
  ghost predicate Keyed(f: Files) {
    && (forall id :: id in f.tasks ==> f.tasks[id].id == id)
    && (forall id :: id in f.events ==> f.events[id].id == id)
  }

  /** What the stores hold at the start: in memory nothing, otherwise what is in the files. */
  function Found(u: Setup): Files {
    if u.memory then NO_FILES else u.files
  }

  /** What the queue holds: events, and bare tasks put back after a failed POST. */
  datatype Item = Event(te: TaskEvent) | Bare(t: Task)

  /** How the POST to the selected worker ends.  A reply with status 201 is decoded, with or without error,
      into the very variable whose address the in-memory store holds. */
  datatype Post = NoConnection | Refused | Decoded(reply: Task, complete: bool)

  /** The task store: where each key leads, and what is there.

      In memory a key leads to a variable, which is known by the id of the task it was made for; two keys may
      lead to the same variable, and a variable may hold a task of another id.  In the persistent store each key
      leads to its own row. */
  datatype TaskStore = TaskStore(keys: map<Id, Id>, cells: map<Id, Task>)

  datatype Manager = Manager(
    pending: seq<Item>,
    taskDb: TaskStore,
    eventDb: map<Id, TaskEvent>,
    workerTaskMap: map<string, seq<Id>>,
    taskWorkerMap: map<Id, string>,
    taskCounts: seq<int>,          // per node
    crashed: bool,                 // a type assertion on a queue item failed
    added: seq<TaskEvent>,         // history: AddTask
    recorded: seq<TaskEvent>,      // history: puts into the event store
    placements: seq<nat>,          // history: nodes selected for new tasks
    stops: seq<Id>)                // history: stop requests

  datatype Step =
    | AddTask(te: TaskEvent)
    | SendWork(selected: Option<nat>, post: Post)   // `selected` and `post` matter only if they are asked for
    | UpdateTask(reported: Task)                    // one task of a worker's list, in updateTasks
    | CheckHealth(name: Id)                         // one task of the listing, in doHealthChecks

  /** The task store over the rows of a file. */
  function Opened(rows: Db): TaskStore {
    TaskStore(map id | id in rows :: id, rows)
  }

  function NewManager(u: Setup): Manager {
    Manager([], Opened(Found(u).tasks), Found(u).events, map w | w in u.workers :: [], map[], seq(|u.workers|, _ => 0),
            false, [], [], [], [])
  }

  const MAX_RESTARTS := 3

  function AsScheduled(t: Task): Task {
    t.(state := Scheduled)
  }

  predicate NeedsRestart(t: Task) {
    t.state == Failed && t.restartCount < MAX_RESTARTS
  }

  function Restarted(t: Task): Task {
    t.(state := Scheduled, restartCount := t.restartCount + 1)
  }

  /** The task stored under `key`. */
  function Stored(st: TaskStore, key: Id): Task
    requires key in st.keys && st.keys[key] in st.cells
  {
    st.cells[st.keys[key]]
  }

  /** Put of a variable that was just made for `t`. */
  function PutNew(st: TaskStore, t: Task): TaskStore {
    TaskStore(st.keys[t.id := t.id], st.cells[t.id := t])
  }

  /** `t` is assigned through the pointer, or to the copy, of what is at `name`, which is then put under the id
      that the task carries. */
  function PutBack(shared: bool, st: TaskStore, name: Id, t: Task): TaskStore {
    if shared then TaskStore(st.keys[t.id := name], st.cells[name := t])
    else TaskStore(st.keys[t.id := t.id], st.cells[t.id := t])
  }

  /** The store after the health check of the task at `name`. */
  function Checked(shared: bool, st: TaskStore, name: Id): TaskStore {
    if name in st.cells && NeedsRestart(st.cells[name]) then PutBack(shared, st, name, Restarted(st.cells[name]))
    else st
  }

  /** What updateTasks takes over from a worker. */
  function Refreshed(stored: Task, reported: Task): Task {
    stored.(state := reported.state, startTime := reported.startTime, finishTime := reported.finishTime,
            containerId := reported.containerId)
  }

  function Updated(shared: bool, st: TaskStore, reported: Task): TaskStore
    requires reported.id in st.keys ==> st.keys[reported.id] in st.cells
  {
    if reported.id in st.keys then
      PutBack(shared, st, st.keys[reported.id], Refreshed(Stored(st, reported.id), reported))
    else st
  }

  /** Notes that the task of `te` goes to the node at `i`, and stores it as Scheduled. */
  function Placed(u: Setup, m: Manager, te: TaskEvent, i: nat): Manager
    requires i < |u.workers| && u.workers[i] in m.workerTaskMap
  {
    var id, w := te.task.id, u.workers[i];
    m.(workerTaskMap := m.workerTaskMap[w := m.workerTaskMap[w] + [id]],
       taskWorkerMap := m.taskWorkerMap[id := w],
       taskDb := PutNew(m.taskDb, AsScheduled(te.task)),
       placements := m.placements + [i])
  }

  /** What the outcome of the POST of the new task `t` changes: a task that could not be sent is queued ... */
  function PostedQueue(pending: seq<Item>, t: Task, post: Post): seq<Item> {
    if post.NoConnection? then pending + [Bare(AsScheduled(t))] else pending
  }

  /** ... a decoded reply overwrites the variable that the in-memory store holds ... */
  function PostedDb(u: Setup, st: TaskStore, id: Id, post: Post): TaskStore {
    if post.Decoded? && u.memory then st.(cells := st.cells[id := post.reply]) else st
  }

  /** ... and the task is counted for the node at `i` if the reply was decoded to its end. */
  function PostedCounts(counts: seq<int>, i: nat, post: Post): seq<int>
    requires i < |counts|
  {
    if post.Decoded? && post.complete then counts[i := counts[i] + 1] else counts
  }

  function Posted(u: Setup, m: Manager, te: TaskEvent, i: nat, post: Post): Manager
    requires i < |m.taskCounts|
  {
    m.(pending := PostedQueue(m.pending, te.task, post),
       taskDb := PostedDb(u, m.taskDb, te.task.id, post),
       taskCounts := PostedCounts(m.taskCounts, i, post))
  }

  /** A new task: place it, store it, and send it to the worker at `i`. */
  function Place(u: Setup, m: Manager, te: TaskEvent, i: nat, post: Post): Manager
    requires i < |u.workers| && u.workers[i] in m.workerTaskMap && i < |m.taskCounts|
  {
    Posted(u, Placed(u, m, te, i), te, i, post)
  }

  /** The two stores hold the same after a placement unless the reply is decoded into the stored variable,
      and says something else than what was stored. */
  lemma StoresAgreeUnlessDecoded(names: seq<string>, m: Manager, te: TaskEvent, i: nat, post: Post)
    requires i < |names| && names[i] in m.workerTaskMap && i < |m.taskCounts|
    ensures Place(Setup(names, true, NO_FILES), m, te, i, post).taskDb ==
            Place(Setup(names, false, NO_FILES), m, te, i, post).taskDb <==>
      (post.Decoded? ==> post.reply == AsScheduled(te.task))
  {
    var shared := Place(Setup(names, true, NO_FILES), m, te, i, post).taskDb;
    assert shared.cells[te.task.id] == if post.Decoded? then post.reply else AsScheduled(te.task);
  }

  predicate ShouldStop(m: Manager, te: TaskEvent) {
    && te.task.id in m.taskDb.keys && m.taskDb.keys[te.task.id] in m.taskDb.cells
    && te.state == Completed && ValidStateTransition(Stored(m.taskDb, te.task.id).state, Completed)
  }

  /** The rest of SendWork for the event `te`, already taken off the queue. */
  function Dispatch(u: Setup, m: Manager, te: TaskEvent, selected: Option<nat>, post: Post): Manager
    requires selected.Some? ==>
      selected.value < |u.workers| && u.workers[selected.value] in m.workerTaskMap && selected.value < |m.taskCounts|
  {
    var r := m.(eventDb := m.eventDb[te.id := te], recorded := m.recorded + [te]);
    if te.task.id in m.taskWorkerMap then
      if ShouldStop(m, te) then r.(stops := r.stops + [te.task.id]) else r
    else if selected.None? then r
    else Place(u, r, te, selected.value, post)
  }

  /** Each key leads to what was made for its id, and there is a task with that id. */
  ghost predicate Own(st: TaskStore) {
    && st.keys.Keys == st.cells.Keys
    && forall k :: k in st.keys ==> st.keys[k] == k && st.cells[k].id == k
  }

  /** Keys lead to variables, and the rows of the persistent store are its own. */
  ghost predicate StoreShaped(shared: bool, st: TaskStore) {
    (forall k :: k in st.keys ==> st.keys[k] in st.cells) && (!shared ==> Own(st))
  }

  /** The shape that every reachable state has; a variable or row was made for the assigned tasks, and before that
      for those that were found in the file. */
  ghost predicate Shaped(u: Setup, m: Manager) {
    && (forall w :: w in m.workerTaskMap <==> w in u.workers) && |m.taskCounts| == |u.workers|
    && (forall n :: n in m.taskDb.cells <==> n in m.taskWorkerMap || n in Found(u).tasks)
    && StoreShaped(u.memory, m.taskDb)
  }

  /** Selections name a node. */
  predicate Possible(u: Setup, m: Manager, e: Step) {
    !m.crashed && (e.SendWork? && e.selected.Some? ==> e.selected.value < |u.workers|)
  }

  function Take(u: Setup, m: Manager, e: Step): Manager
    requires Shaped(u, m) && Possible(u, m, e)
  {
    match e
    case AddTask(te) => m.(pending := m.pending + [Event(te)], added := m.added + [te])
    case SendWork(selected, post) =>
      if m.pending == [] then m
      else
        var rest := m.(pending := m.pending[1..]);
        (match m.pending[0]
         case Bare(_) => rest.(crashed := true)
         case Event(te) => Dispatch(u, rest, te, selected, post))
    case UpdateTask(reported) => m.(taskDb := Updated(u.memory, m.taskDb, reported))
    case CheckHealth(name) => m.(taskDb := Checked(u.memory, m.taskDb, name))
  }

  // ---------------------------------------------------------------- the assignment maps

  /** The tasks counted on the nodes called `w`. */
  function Counted(names: seq<string>, counts: seq<int>, w: string): int
    requires |names| == |counts|
    decreases |names|
  {
    if names == [] then 0 else (if names[0] == w then counts[0] else 0) + Counted(names[1..], counts[1..], w)
  }

  type ByWorker = map<string, seq<Id>>
  type ByTask = map<Id, string>

  /** The two assignment maps say the same, and no task is listed twice. */
  ghost predicate MapsInverse(lists: ByWorker, homes: ByTask) {
    && (forall id :: id in homes ==> homes[id] in lists && id in lists[homes[id]])
    && (forall w, id :: w in lists && id in lists[w] ==> id in homes && homes[id] == w)
    && (forall w :: w in lists ==> NoRepeats(lists[w]))
  }

  ghost predicate NoRepeats(ids: seq<Id>) {
    forall i, j :: 0 <= i < j < |ids| ==> ids[i] != ids[j]
  }

  ghost predicate CountsCovered(names: seq<string>, counts: seq<int>, lists: ByWorker)
    requires |names| == |counts|
  {
    forall w :: w in lists ==> Counted(names, counts, w) <= |lists[w]|
  }

  ghost predicate AssignedAreStored(st: TaskStore, homes: ByTask) {
    forall id :: id in homes ==> id in st.keys
  }

  /** What the two maps and the counts say about each other and about the store. */
  ghost predicate Booked(u: Setup, m: Manager)
    requires |m.taskCounts| == |u.workers|
  {
    && MapsInverse(m.workerTaskMap, m.taskWorkerMap)
    && CountsCovered(u.workers, m.taskCounts, m.workerTaskMap)
    && AssignedAreStored(m.taskDb, m.taskWorkerMap)
  }

  ghost predicate Inv(u: Setup, m: Manager) {
    Shaped(u, m) && Booked(u, m)
  }

  lemma {:induction false} CountedUpdate(names: seq<string>, counts: seq<int>, i: nat, w: string)
    requires |names| == |counts| && i < |counts|
    ensures Counted(names, counts[i := counts[i] + 1], w) ==
      Counted(names, counts, w) + (if names[i] == w then 1 else 0)
    decreases |names|
  {
    var more := counts[i := counts[i] + 1];
    if i == 0 {
      assert more[1..] == counts[1..];
    } else {
      assert more[1..] == counts[1..][i - 1 := counts[1..][i - 1] + 1];
      CountedUpdate(names[1..], counts[1..], i - 1, w);
    }
  }

  lemma AssignKeepsInverse(lists: ByWorker, homes: ByTask, id: Id, w: string)
    requires MapsInverse(lists, homes) && id !in homes && w in lists
    ensures MapsInverse(lists[w := lists[w] + [id]], homes[id := w])
  {
    assert id !in lists[w];
  }

  // ---------------------------------------------------------------- every step

  lemma PutNewKeepsShape(shared: bool, st: TaskStore, t: Task)
    requires StoreShaped(shared, st)
    ensures StoreShaped(shared, PutNew(st, t))
  {
  }

  lemma PostedKeepsShape(u: Setup, st: TaskStore, id: Id, post: Post)
    requires StoreShaped(u.memory, st) && id in st.cells
    ensures StoreShaped(u.memory, PostedDb(u, st, id, post)) && PostedDb(u, st, id, post).cells.Keys == st.cells.Keys
  {
  }

  lemma PlaceKeepsShape(u: Setup, m: Manager, te: TaskEvent, i: nat, post: Post)
    requires Shaped(u, m) && i < |u.workers|
    ensures Shaped(u, Place(u, m, te, i, post))
  {
    var st := PutNew(m.taskDb, AsScheduled(te.task));
    PutNewKeepsShape(u.memory, m.taskDb, AsScheduled(te.task));
    PostedKeepsShape(u, st, te.task.id, post);
    assert Place(u, m, te, i, post).taskDb == PostedDb(u, st, te.task.id, post);
  }

  /** `later` is in shape, has the same variables, and no key less. */
  ghost predicate Follows(shared: bool, st: TaskStore, later: TaskStore) {
    StoreShaped(shared, later) && later.cells.Keys == st.cells.Keys && forall k :: k in st.keys ==> k in later.keys
  }

  lemma PutBackFollows(shared: bool, st: TaskStore, name: Id, t: Task)
    requires StoreShaped(shared, st) && name in st.cells && t.id == st.cells[name].id
    ensures Follows(shared, st, PutBack(shared, st, name, t))
  {
    var later := PutBack(shared, st, name, t);
    if shared {
      assert later.keys == st.keys[t.id := name] && later.cells == st.cells[name := t];
    } else {
      assert t.id == name && later == TaskStore(st.keys, st.cells[name := t]) by {
        assert st.keys[name := name] == st.keys;
      }
    }
  }

  lemma UpdateFollows(shared: bool, st: TaskStore, reported: Task)
    requires StoreShaped(shared, st)
    ensures Follows(shared, st, Updated(shared, st, reported))
  {
    if reported.id in st.keys {
      PutBackFollows(shared, st, st.keys[reported.id], Refreshed(Stored(st, reported.id), reported));
    }
  }

  lemma CheckFollows(shared: bool, st: TaskStore, name: Id)
    requires StoreShaped(shared, st)
    ensures Follows(shared, st, Checked(shared, st, name))
  {
    if name in st.cells {
      PutBackFollows(shared, st, name, Restarted(st.cells[name]));
    }
  }

  /** Updates and checks change the task store only. */
  lemma RewriteKeepsShape(u: Setup, m: Manager, e: Step)
    requires Shaped(u, m) && Possible(u, m, e) && (e.UpdateTask? || e.CheckHealth?)
    ensures var m' := Take(u, m, e);
      Shaped(u, m') && m' == m.(taskDb := m'.taskDb) && Follows(u.memory, m.taskDb, m'.taskDb)
  {
    if e.UpdateTask? {
      UpdateFollows(u.memory, m.taskDb, e.reported);
    } else {
      CheckFollows(u.memory, m.taskDb, e.name);
    }
  }

  lemma DispatchKeepsShape(u: Setup, m: Manager, te: TaskEvent, selected: Option<nat>, post: Post)
    requires Shaped(u, m) && (selected.Some? ==> selected.value < |u.workers|)
    ensures Shaped(u, Dispatch(u, m, te, selected, post))
  {
    if selected.Some? {
      var r := m.(eventDb := m.eventDb[te.id := te], recorded := m.recorded + [te]);
      PlaceKeepsShape(u, r, te, selected.value, post);
    }
  }

  lemma StepKeepsShape(u: Setup, m: Manager, e: Step)
    requires Shaped(u, m) && Possible(u, m, e)
    ensures Shaped(u, Take(u, m, e))
  {
    if e.UpdateTask? || e.CheckHealth? {
      RewriteKeepsShape(u, m, e);
    } else if e.SendWork? && m.pending != [] && m.pending[0].Event? {
      DispatchKeepsShape(u, m.(pending := m.pending[1..]), m.pending[0].te, e.selected, e.post);
    }
  }

  lemma PlaceKeepsBooks(u: Setup, m: Manager, te: TaskEvent, i: nat, post: Post)
    requires Shaped(u, m) && Booked(u, m) && i < |u.workers| && te.task.id !in m.taskWorkerMap
    ensures |Place(u, m, te, i, post).taskCounts| == |u.workers| && Booked(u, Place(u, m, te, i, post))
  {
    var m', w := Place(u, m, te, i, post), u.workers[i];
    AssignKeepsInverse(m.workerTaskMap, m.taskWorkerMap, te.task.id, w);
    assert m'.taskDb.keys == m.taskDb.keys[te.task.id := te.task.id];
    AssignKeepsCovered(u.workers, m.taskCounts, m.workerTaskMap, te.task.id, i, post);
  }

  lemma AssignKeepsCovered(names: seq<string>, counts: seq<int>, lists: ByWorker, id: Id, i: nat, post: Post)
    requires |names| == |counts| && i < |names| && names[i] in lists && CountsCovered(names, counts, lists)
    ensures CountsCovered(names, PostedCounts(counts, i, post), lists[names[i] := lists[names[i]] + [id]])
  {
    forall w | w in lists
      ensures Counted(names, counts[i := counts[i] + 1], w) ==
              Counted(names, counts, w) + (if names[i] == w then 1 else 0)
    {
      CountedUpdate(names, counts, i, w);
    }
  }

  lemma SendKeepsBooks(u: Setup, m: Manager, e: Step)
    requires Inv(u, m) && Possible(u, m, e) && e.SendWork? && m.pending != [] && m.pending[0].Event?
    ensures |Take(u, m, e).taskCounts| == |u.workers| && Booked(u, Take(u, m, e))
  {
    var te := m.pending[0].te;
    if te.task.id !in m.taskWorkerMap && e.selected.Some? {
      var r := m.(pending := m.pending[1..], eventDb := m.eventDb[te.id := te], recorded := m.recorded + [te]);
      PlaceKeepsBooks(u, r, te, e.selected.value, e.post);
    }
  }

  lemma StepKeepsBooks(u: Setup, m: Manager, e: Step)
    requires Inv(u, m) && Possible(u, m, e)
    ensures |Take(u, m, e).taskCounts| == |u.workers| && Booked(u, Take(u, m, e))
  {
    if e.UpdateTask? || e.CheckHealth? {
      RewriteKeepsShape(u, m, e);
    } else if e.SendWork? && m.pending != [] && m.pending[0].Event? {
      SendKeepsBooks(u, m, e);
    }
  }

  lemma StepKeepsInv(u: Setup, m: Manager, e: Step)
    requires Inv(u, m) && Possible(u, m, e)
    ensures Inv(u, Take(u, m, e))
  {
    StepKeepsShape(u, m, e);
    StepKeepsBooks(u, m, e);
  }
}
