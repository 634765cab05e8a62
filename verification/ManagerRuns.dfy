/** Safety of the manager over whole runs. */
module ManagerRuns {
  import opened TaskState
  import opened Tasks
  import opened ManagerModel

  /** The shape asked for at each state is no restriction: a new manager over rows under their own ids has it, and
      every step keeps it. */
  ghost predicate ValidRun(u: Setup, m: Manager, es: seq<Step>)
    decreases |es|
  {
    Shaped(u, m) && (es == [] || (Possible(u, m, es[0]) && ValidRun(u, Take(u, m, es[0]), es[1..])))
  }

  ghost function Run(u: Setup, m: Manager, es: seq<Step>): Manager
    requires ValidRun(u, m, es)
    decreases |es|
  {
    if es == [] then m else Run(u, Take(u, m, es[0]), es[1..])
  }

  /** The step places a new task. */
  predicate Places(m: Manager, e: Step) {
    && e.SendWork? && m.pending != [] && m.pending[0].Event? && m.pending[0].te.task.id !in m.taskWorkerMap
    && e.selected.Some?
  }

  /** What the rest of SendWork does for an event, field by field. */
  lemma DispatchFields(u: Setup, m: Manager, te: TaskEvent, selected: Option<nat>, post: Post)
    requires selected.Some? ==>
      selected.value < |u.workers| && u.workers[selected.value] in m.workerTaskMap && selected.value < |m.taskCounts|
    ensures var m' := Dispatch(u, m, te, selected, post);
      && m'.added == m.added && m'.recorded == m.recorded + [te] && m'.eventDb == m.eventDb[te.id := te]
      && m'.crashed == m.crashed
      && if te.task.id !in m.taskWorkerMap && selected.Some?
         then && m'.pending == PostedQueue(m.pending, te.task, post)
              && m'.taskDb == PostedDb(u, PutNew(m.taskDb, AsScheduled(te.task)), te.task.id, post)
              && m'.taskWorkerMap == m.taskWorkerMap[te.task.id := u.workers[selected.value]]
         else m'.pending == m.pending && m'.taskDb == m.taskDb && m'.taskWorkerMap == m.taskWorkerMap
  {
  }

  /** What SendWork does when an event is first. */
  lemma SendFields(u: Setup, m: Manager, e: Step)
    requires Shaped(u, m) && Possible(u, m, e) && e.SendWork? && m.pending != [] && m.pending[0].Event?
    ensures var m', te, rest := Take(u, m, e), m.pending[0].te, m.pending[1..];
      && m'.added == m.added && m'.recorded == m.recorded + [te] && m'.eventDb == m.eventDb[te.id := te]
      && m'.crashed == m.crashed
      && if Places(m, e)
         then && m'.pending == PostedQueue(rest, te.task, e.post)
              && m'.taskDb == PostedDb(u, PutNew(m.taskDb, AsScheduled(te.task)), te.task.id, e.post)
              && m'.taskWorkerMap == m.taskWorkerMap[te.task.id := u.workers[e.selected.value]]
         else m'.pending == rest && m'.taskDb == m.taskDb && m'.taskWorkerMap == m.taskWorkerMap
  {
    DispatchFields(u, m.(pending := m.pending[1..]), m.pending[0].te, e.selected, e.post);
  }

  // ---------------------------------------------------------------- keys

  /** If the in-memory store is told about a new task at all, it is told about the task that was sent. */
  predicate ReplyKeepsId(u: Setup, m: Manager, e: Step) {
    Places(m, e) && e.post.Decoded? && u.memory ==> e.post.reply.id == m.pending[0].te.task.id
  }

  ghost predicate RepliesKeepIds(u: Setup, m: Manager, es: seq<Step>)
    requires ValidRun(u, m, es)
    decreases |es|
  {
    es == [] || (ReplyKeepsId(u, m, es[0]) && RepliesKeepIds(u, Take(u, m, es[0]), es[1..]))
  }

  lemma PlaceKeepsOwn(u: Setup, m: Manager, te: TaskEvent, i: nat, post: Post)
    requires i < |u.workers| && u.workers[i] in m.workerTaskMap && i < |m.taskCounts| && Own(m.taskDb)
    ensures Own(Place(u, m, te, i, post).taskDb) <==> (post.Decoded? && u.memory ==> post.reply.id == te.task.id)
  {
    var st' := Place(u, m, te, i, post).taskDb;
    assert st' == PostedDb(u, PutNew(m.taskDb, AsScheduled(te.task)), te.task.id, post);
    assert st'.keys[te.task.id] == te.task.id;
    assert te.task.id in st'.cells;
  }

  /** A step keeps every task under its own id exactly if it decodes no reply with another id. */
  lemma StepKeepsOwnExactlyWhen(u: Setup, m: Manager, e: Step)
    requires Shaped(u, m) && Possible(u, m, e) && Own(m.taskDb)
    ensures Own(Take(u, m, e).taskDb) <==> ReplyKeepsId(u, m, e)
  {
    if Places(m, e) {
      var te := m.pending[0].te;
      var r := m.(pending := m.pending[1..], eventDb := m.eventDb[te.id := te], recorded := m.recorded + [te]);
      PlaceKeepsOwn(u, r, te, e.selected.value, e.post);
    }
  }

  /** The variable made for task `n` holds a task with another id. */
  predicate Foreign(m: Manager, n: Id) {
    n in m.taskDb.cells && m.taskDb.cells[n].id != n
  }

  lemma BadReplyIsForeign(u: Setup, m: Manager, e: Step)
    requires Shaped(u, m) && Possible(u, m, e) && !ReplyKeepsId(u, m, e)
    ensures Foreign(Take(u, m, e), m.pending[0].te.task.id)
  {
  }

  lemma StepKeepsForeign(u: Setup, m: Manager, e: Step, n: Id)
    requires Shaped(u, m) && Possible(u, m, e) && Foreign(m, n)
    ensures Foreign(Take(u, m, e), n)
  {
    if e.SendWork? && m.pending != [] && m.pending[0].Event? {
      SendFields(u, m, e);
    }
  }

  lemma {:induction false} RunKeepsForeign(u: Setup, m: Manager, es: seq<Step>, n: Id)
    requires ValidRun(u, m, es) && Foreign(m, n)
    ensures Foreign(Run(u, m, es), n)
    decreases |es|
  {
    if es != [] {
      StepKeepsForeign(u, m, es[0], n);
      RunKeepsForeign(u, Take(u, m, es[0]), es[1..], n);
    }
  }

  /** Along a run every task stays under its own id exactly if no reply with another id is ever decoded into the
      in-memory store: one such reply, and it never heals. */
  lemma {:induction false} TasksStayOwnExactlyWhen(u: Setup, m: Manager, es: seq<Step>)
    requires ValidRun(u, m, es) && Own(m.taskDb)
    ensures Own(Run(u, m, es).taskDb) <==> RepliesKeepIds(u, m, es)
    decreases |es|
  {
    if es != [] {
      var m' := Take(u, m, es[0]);
      StepKeepsOwnExactlyWhen(u, m, es[0]);
      if ReplyKeepsId(u, m, es[0]) {
        TasksStayOwnExactlyWhen(u, m', es[1..]);
      } else {
        BadReplyIsForeign(u, m, es[0]);
        RunKeepsForeign(u, m', es[1..], m.pending[0].te.task.id);
      }
    }
  }

  /** What every such reply leads to: the next report on the task it answered is put under the id it carries.
      There the reply replaces what was stored, restart count included; and if no task has that id, it is stored
      without being assigned. */
  lemma ForeignReplyTakesOver(u: Setup, m: Manager, e: Step, reported: Task)
    requires Inv(u, m) && Possible(u, m, e) && !ReplyKeepsId(u, m, e)
    requires reported.id == m.pending[0].te.task.id
    ensures var m', x := Take(u, m, e), e.post.reply.id;
      && Shaped(u, m') && Possible(u, m', Step.UpdateTask(reported))
      && var m'' := Take(u, m', Step.UpdateTask(reported));
        && Shaped(u, m'') && x in m''.taskDb.keys && m''.taskDb.keys[x] == reported.id
        && Stored(m''.taskDb, x) == Refreshed(e.post.reply, reported)
        && Stored(m''.taskDb, x).restartCount == e.post.reply.restartCount
        && (x !in m.taskWorkerMap ==> x !in m''.taskWorkerMap)
  {
    StepKeepsShape(u, m, e);
    var m' := Take(u, m, e);
    StepKeepsShape(u, m', Step.UpdateTask(reported));
    assert m'.taskDb.keys[reported.id] == reported.id && m'.taskDb.cells[reported.id] == e.post.reply;
  }

  // ---------------------------------------------------------------- the two stores

  /** A decoded reply repeats the task as it was stored. */
  predicate Echoes(m: Manager, e: Step) {
    Places(m, e) && e.post.Decoded? ==> e.post.reply == AsScheduled(m.pending[0].te.task)
  }

  /** Every reply that is decoded along the run does. */
  ghost predicate Echoed(u: Setup, m: Manager, es: seq<Step>)
    requires ValidRun(u, m, es)
    decreases |es|
  {
    es == [] || (Echoes(m, es[0]) && Echoed(u, Take(u, m, es[0]), es[1..]))
  }

  /** Both stores hold the same for `n`. */
  predicate SameRow(st: TaskStore, other: TaskStore, n: Id) {
    && (n in st.cells <==> n in other.cells) && (n in st.cells ==> st.cells[n] == other.cells[n])
    && (n in st.keys <==> n in other.keys) && (n in st.keys ==> st.keys[n] == other.keys[n])
  }

  /** They do so for all assigned tasks, and for all that were not in the file. */
  ghost predicate SameRows(st: TaskStore, other: TaskStore, homes: ByTask, found: Db) {
    forall n :: n in homes || n !in found ==> SameRow(st, other, n)
  }

  predicate SameEvent(events: map<Id, TaskEvent>, others: map<Id, TaskEvent>, id: Id) {
    (id in events <==> id in others) && (id in events ==> events[id] == others[id])
  }

  ghost predicate SameEvents(
      events: map<Id, TaskEvent>, others: map<Id, TaskEvent>, recorded: seq<TaskEvent>, found: map<Id, TaskEvent>)
  {
    && (forall te :: te in recorded ==> SameEvent(events, others, te.id))
    && (forall id :: id !in found ==> SameEvent(events, others, id))
  }

  /** The managers are the same, but for tasks of the file that are not assigned and events of the file that are not
      recorded again. */
  ghost predicate Alike(files: Files, m: Manager, p: Manager) {
    && p == m.(taskDb := p.taskDb, eventDb := p.eventDb)
    && SameRows(m.taskDb, p.taskDb, m.taskWorkerMap, files.tasks)
    && SameEvents(m.eventDb, p.eventDb, m.recorded, files.events)
  }

  function InMemory(names: seq<string>): Setup {
    Setup(names, true, NO_FILES)
  }

  function OnDisk(names: seq<string>, files: Files): Setup {
    Setup(names, false, files)
  }

  lemma UpdateKeepsRows(st: TaskStore, other: TaskStore, homes: ByTask, found: Db, reported: Task)
    requires Own(st) && Own(other) && SameRows(st, other, homes, found)
    ensures SameRows(Updated(true, st, reported), Updated(false, other, reported), homes, found)
  {
    forall n | n in homes || n !in found
      ensures SameRow(Updated(true, st, reported), Updated(false, other, reported), n)
    {
      assert SameRow(st, other, n);
    }
  }

  lemma CheckKeepsRows(st: TaskStore, other: TaskStore, homes: ByTask, found: Db, name: Id)
    requires Own(st) && Own(other) && SameRows(st, other, homes, found)
    ensures SameRows(Checked(true, st, name), Checked(false, other, name), homes, found)
  {
    forall n | n in homes || n !in found ensures SameRow(Checked(true, st, name), Checked(false, other, name), n) {
      assert SameRow(st, other, n);
    }
  }

  lemma PutKeepsRows(st: TaskStore, other: TaskStore, homes: ByTask, found: Db, t: Task, w: string, stored: Task)
    requires SameRows(st, other, homes, found)
    ensures var next := PutNew(st, t);
      SameRows(next.(cells := next.cells[t.id := stored]), PutNew(other, t), homes[t.id := w], found) <==> stored == t
  {
    var next := PutNew(st, t);
    var placed, homes' := next.(cells := next.cells[t.id := stored]), homes[t.id := w];
    if stored == t {
      forall n | n in homes' || n !in found ensures SameRow(placed, PutNew(other, t), n) {
        assert n != t.id ==> SameRow(st, other, n);
      }
    } else {
      assert t.id in homes' && !SameRow(placed, PutNew(other, t), t.id);
    }
  }

  lemma EventKeepsEvents(
      events: map<Id, TaskEvent>, others: map<Id, TaskEvent>, recorded: seq<TaskEvent>, found: map<Id, TaskEvent>,
      te: TaskEvent)
    requires SameEvents(events, others, recorded, found)
    ensures SameEvents(events[te.id := te], others[te.id := te], recorded + [te], found)
  {
    forall x | x in recorded + [te] ensures SameEvent(events[te.id := te], others[te.id := te], x.id) {
      assert x in recorded ==> SameEvent(events, others, x.id);
    }
    forall id | id !in found ensures SameEvent(events[te.id := te], others[te.id := te], id) {
      assert SameEvent(events, others, id);
    }
  }

  /** Both managers are in shape, the tasks in memory under their own ids. */
  ghost predicate Paired(names: seq<string>, files: Files, m: Manager, p: Manager) {
    Shaped(InMemory(names), m) && Shaped(OnDisk(names, files), p) && Own(m.taskDb) && Alike(files, m, p)
  }

  /** What differs after an event, if anything, is in the stores. */
  lemma SameBesides(
      u: Setup, v: Setup, m: Manager, p: Manager, te: TaskEvent, selected: Option<nat>, post: Post)
    requires p == m.(taskDb := p.taskDb, eventDb := p.eventDb) && u.workers == v.workers
    requires te.task.id in m.taskWorkerMap ==> ShouldStop(m, te) == ShouldStop(p, te)
    requires selected.Some? ==>
      selected.value < |u.workers| && u.workers[selected.value] in m.workerTaskMap && selected.value < |m.taskCounts|
    ensures var m', p' := Dispatch(u, m, te, selected, post), Dispatch(v, p, te, selected, post);
      p' == m'.(taskDb := p'.taskDb, eventDb := p'.eventDb)
  {
  }

  lemma SendIsSameBesides(names: seq<string>, files: Files, m: Manager, p: Manager, e: Step)
    requires Paired(names, files, m, p) && Possible(InMemory(names), m, e)
    requires e.SendWork? && m.pending != [] && m.pending[0].Event?
    ensures var m', p' := Take(InMemory(names), m, e), Take(OnDisk(names, files), p, e);
      p' == m'.(taskDb := p'.taskDb, eventDb := p'.eventDb)
  {
    var id, rest := m.pending[0].te.task.id, m.pending[1..];
    assert id in m.taskWorkerMap ==> SameRow(m.taskDb, p.taskDb, id);
    SameBesides(InMemory(names), OnDisk(names, files), m.(pending := rest), p.(pending := rest), m.pending[0].te,
                e.selected, e.post);
  }

  lemma SendAgreesExactlyWhen(names: seq<string>, files: Files, m: Manager, p: Manager, e: Step)
    requires Paired(names, files, m, p) && Possible(InMemory(names), m, e)
    requires e.SendWork? && m.pending != [] && m.pending[0].Event?
    ensures Alike(files, Take(InMemory(names), m, e), Take(OnDisk(names, files), p, e)) <==> Echoes(m, e)
  {
    var te := m.pending[0].te;
    SendIsSameBesides(names, files, m, p, e);
    SendFields(InMemory(names), m, e);
    SendFields(OnDisk(names, files), p, e);
    EventKeepsEvents(m.eventDb, p.eventDb, m.recorded, files.events, te);
    if Places(m, e) {
      PlacementRows(names, files, m, p, e);
    }
  }

  /** What a decoded reply leaves of the task that was just put. */
  lemma PostedOver(names: seq<string>, files: Files, st: TaskStore, t: Task, post: Post)
    ensures var next := PutNew(st, t);
      && PostedDb(OnDisk(names, files), next, t.id, post) == next
      && PostedDb(InMemory(names), next, t.id, post) ==
           next.(cells := next.cells[t.id := if post.Decoded? then post.reply else t])
  {
    var next := PutNew(st, t);
    assert next.cells[t.id := t] == next.cells;
  }

  lemma PlacementRows(names: seq<string>, files: Files, m: Manager, p: Manager, e: Step)
    requires Paired(names, files, m, p) && Possible(InMemory(names), m, e) && Places(m, e)
    ensures var m', p' := Take(InMemory(names), m, e), Take(OnDisk(names, files), p, e);
      SameRows(m'.taskDb, p'.taskDb, m'.taskWorkerMap, files.tasks) <==> Echoes(m, e)
  {
    SendFields(InMemory(names), m, e);
    SendFields(OnDisk(names, files), p, e);
    var t := AsScheduled(m.pending[0].te.task);
    PostedOver(names, files, m.taskDb, t, e.post);
    PostedOver(names, files, p.taskDb, t, e.post);
    PutKeepsRows(m.taskDb, p.taskDb, m.taskWorkerMap, files.tasks, t, names[e.selected.value],
                 if e.post.Decoded? then e.post.reply else t);
  }

  /** A step keeps the managers alike exactly if it decodes no reply that says something else than what was stored. */
  lemma StepAgreesExactlyWhen(names: seq<string>, files: Files, m: Manager, p: Manager, e: Step)
    requires Paired(names, files, m, p) && Possible(InMemory(names), m, e)
    ensures Alike(files, Take(InMemory(names), m, e), Take(OnDisk(names, files), p, e)) <==> Echoes(m, e)
    ensures Echoes(m, e) ==> Own(Take(InMemory(names), m, e).taskDb)
  {
    StepKeepsOwnExactlyWhen(InMemory(names), m, e);
    match e {
      case UpdateTask(reported) =>
        UpdateKeepsRows(m.taskDb, p.taskDb, m.taskWorkerMap, files.tasks, reported);
      case CheckHealth(name) =>
        CheckKeepsRows(m.taskDb, p.taskDb, m.taskWorkerMap, files.tasks, name);
      case SendWork(_, _) =>
        if m.pending != [] && m.pending[0].Event? {
          SendAgreesExactlyWhen(names, files, m, p, e);
        }
      case AddTask(_) =>
    }
  }

  /** The managers are alike after every step. */
  ghost predicate StayAlike(names: seq<string>, files: Files, m: Manager, p: Manager, es: seq<Step>)
    requires ValidRun(InMemory(names), m, es) && ValidRun(OnDisk(names, files), p, es)
    decreases |es|
  {
    Alike(files, m, p) &&
    (es == [] ||
     StayAlike(names, files, Take(InMemory(names), m, es[0]), Take(OnDisk(names, files), p, es[0]), es[1..]))
  }

  /** Sends, updates and restarts treat both stores alike: over any run, a manager in memory and one over files stay
      the same in all that they do exactly if no decoded reply differs from the task that it overwrites. */
  lemma {:induction false} StoresAgreeOverRunsExactlyWhen(
      names: seq<string>, files: Files, m: Manager, p: Manager, es: seq<Step>)
    requires ValidRun(InMemory(names), m, es) && ValidRun(OnDisk(names, files), p, es)
    requires Own(m.taskDb) && Alike(files, m, p)
    ensures StayAlike(names, files, m, p, es) <==> Echoed(InMemory(names), m, es)
    decreases |es|
  {
    if es != [] {
      StepAgreesExactlyWhen(names, files, m, p, es[0]);
      var m', p' := Take(InMemory(names), m, es[0]), Take(OnDisk(names, files), p, es[0]);
      if Echoes(m, es[0]) {
        StoresAgreeOverRunsExactlyWhen(names, files, m', p', es[1..]);
      } else {
        assert !StayAlike(names, files, m', p', es[1..]);
      }
    }
  }

  /** They start so. */
  lemma NewManagersAreAlike(names: seq<string>, files: Files)
    ensures Alike(files, NewManager(InMemory(names)), NewManager(OnDisk(names, files)))
    ensures Own(NewManager(InMemory(names)).taskDb)
  {
  }

  lemma SameIsEqual(st: TaskStore, other: TaskStore)
    requires forall n :: SameRow(st, other, n)
    ensures st == other
  {
    assert forall n :: (n in st.cells || n in other.cells) ==> SameRow(st, other, n);
    assert forall n :: (n in st.keys || n in other.keys) ==> SameRow(st, other, n);
    assert st.cells == other.cells && st.keys == other.keys;
  }

  lemma SameEventsAreEqual(events: map<Id, TaskEvent>, others: map<Id, TaskEvent>)
    requires forall id :: SameEvent(events, others, id)
    ensures events == others
  {
    assert forall id :: (id in events || id in others) ==> SameEvent(events, others, id);
  }

  lemma AlikeIsEqual(m: Manager, p: Manager)
    requires Alike(NO_FILES, m, p)
    ensures m == p
  {
    forall n ensures SameRow(m.taskDb, p.taskDb, n) && SameEvent(m.eventDb, p.eventDb, n) {
      assert n !in NO_FILES.tasks && n !in NO_FILES.events;
    }
    SameIsEqual(m.taskDb, p.taskDb);
    SameEventsAreEqual(m.eventDb, p.eventDb);
  }

  /** Over files that were empty the managers stay equal, as long as no decoded reply differs from the task that it
      overwrites. */
  lemma {:induction false} StoresAgreeOverRuns(names: seq<string>, m: Manager, es: seq<Step>)
    requires ValidRun(InMemory(names), m, es) && Echoed(InMemory(names), m, es) && Own(m.taskDb)
    ensures ValidRun(OnDisk(names, NO_FILES), m, es)
    ensures Run(InMemory(names), m, es) == Run(OnDisk(names, NO_FILES), m, es)
    decreases |es|
  {
    if es != [] {
      StepAgreesExactlyWhen(names, NO_FILES, m, m, es[0]);
      AlikeIsEqual(Take(InMemory(names), m, es[0]), Take(OnDisk(names, NO_FILES), m, es[0]));
      StoresAgreeOverRuns(names, Take(InMemory(names), m, es[0]), es[1..]);
    }
  }

  // ---------------------------------------------------------------- assignments

  lemma InitialInv(u: Setup)
    requires Keyed(Found(u))
    ensures Inv(u, NewManager(u))
  {
    forall w ensures Counted(u.workers, NewManager(u).taskCounts, w) == 0 {
      NothingCounted(u.workers, NewManager(u).taskCounts, w);
    }
  }

  lemma {:induction false} NothingCounted(names: seq<string>, counts: seq<int>, w: string)
    requires |names| == |counts| && forall i :: 0 <= i < |counts| ==> counts[i] == 0
    ensures Counted(names, counts, w) == 0
    decreases |names|
  {
    if names != [] {
      NothingCounted(names[1..], counts[1..], w);
    }
  }

  lemma {:induction false} RunKeepsInv(u: Setup, m: Manager, es: seq<Step>)
    requires Inv(u, m) && ValidRun(u, m, es)
    ensures Inv(u, Run(u, m, es))
    decreases |es|
  {
    if es != [] {
      StepKeepsInv(u, m, es[0]);
      RunKeepsInv(u, Take(u, m, es[0]), es[1..]);
    }
  }

  /** Lists and homes say the same, and no task is listed twice over all lists. */
  ghost predicate Matching(lists: ByWorker, homes: ByTask) {
    && (forall id, w :: w in lists && id in lists[w] <==> id in homes && homes[id] == w)
    && (forall w :: w in lists ==> NoRepeats(lists[w]))
  }

  /** The assigned tasks are stored, and assigned workers exist.  If all tasks are under their own ids, then only
      assigned ones and those that were in the file are stored. */
  ghost predicate HoldsAssigned(u: Setup, st: TaskStore, homes: ByTask) {
    && (forall id :: id in homes ==> id in st.keys && homes[id] in u.workers)
    && (Own(st) ==> forall id :: id in st.keys <==> id in homes || id in Found(u).tasks)
  }

  /** No more tasks are counted for a worker than are on its list. */
  ghost predicate Covered(u: Setup, m: Manager) {
    |m.taskCounts| == |u.workers| &&
    forall w :: w in u.workers ==>
      w in m.workerTaskMap && Counted(u.workers, m.taskCounts, w) <= |m.workerTaskMap[w]|
  }

  lemma InverseMatches(lists: ByWorker, homes: ByTask)
    requires MapsInverse(lists, homes)
    ensures Matching(lists, homes)
  {
  }

  lemma InvIsConsistent(u: Setup, m: Manager)
    requires Inv(u, m)
    ensures Matching(m.workerTaskMap, m.taskWorkerMap) && Covered(u, m) && HoldsAssigned(u, m.taskDb, m.taskWorkerMap)
  {
    InverseMatches(m.workerTaskMap, m.taskWorkerMap);
  }

  /** In every reachable state the two maps are inverse, the counts are covered, and exactly what should be is
      stored; all tasks are under their own ids exactly if all replies kept their
      ids. */
  lemma AssignmentsAreConsistent(u: Setup, es: seq<Step>)
    requires Keyed(Found(u)) && ValidRun(u, NewManager(u), es)
    ensures var m := Run(u, NewManager(u), es);
      && Matching(m.workerTaskMap, m.taskWorkerMap) && Covered(u, m) && HoldsAssigned(u, m.taskDb, m.taskWorkerMap)
      && (Own(m.taskDb) <==> RepliesKeepIds(u, NewManager(u), es))
  {
    TasksStayOwnExactlyWhen(u, NewManager(u), es);
    InitialInv(u);
    RunKeepsInv(u, NewManager(u), es);
    InvIsConsistent(u, Run(u, NewManager(u), es));
  }

  lemma StepKeepsPlacement(u: Setup, m: Manager, e: Step, id: Id)
    requires Shaped(u, m) && Possible(u, m, e) && id in m.taskWorkerMap
    ensures id in Take(u, m, e).taskWorkerMap && Take(u, m, e).taskWorkerMap[id] == m.taskWorkerMap[id]
  {
    if e.UpdateTask? || e.CheckHealth? {
      RewriteKeepsShape(u, m, e);
    } else if e.SendWork? && m.pending != [] && m.pending[0].Event? {
      SendFields(u, m, e);
    }
  }

  /** An assignment never changes once made. */
  lemma {:induction false} FirstPlacementWins(u: Setup, m: Manager, es: seq<Step>, id: Id)
    requires ValidRun(u, m, es) && id in m.taskWorkerMap
    ensures id in Run(u, m, es).taskWorkerMap && Run(u, m, es).taskWorkerMap[id] == m.taskWorkerMap[id]
    decreases |es|
  {
    if es != [] {
      StepKeepsPlacement(u, m, es[0], id);
      FirstPlacementWins(u, Take(u, m, es[0]), es[1..], id);
    }
  }

  lemma DispatchStops(u: Setup, m: Manager, te: TaskEvent, selected: Option<nat>, post: Post)
    requires selected.Some? ==>
      selected.value < |u.workers| && u.workers[selected.value] in m.workerTaskMap && selected.value < |m.taskCounts|
    ensures Dispatch(u, m, te, selected, post).stops ==
      if te.task.id in m.taskWorkerMap && ShouldStop(m, te) then m.stops + [te.task.id] else m.stops
  {
  }

  /** A stop request goes out exactly when an event asks for Completed, and its task is assigned and
      stored as Running or Stopping. */
  lemma StopsExactlyWhen(u: Setup, m: Manager, e: Step)
    requires Inv(u, m) && Possible(u, m, e)
    ensures Take(u, m, e).stops != m.stops <==>
      && e.SendWork? && m.pending != [] && m.pending[0].Event?
      && m.pending[0].te.state == Completed
      && m.pending[0].te.task.id in m.taskWorkerMap
      && Stored(m.taskDb, m.pending[0].te.task.id).state in {Running, Stopping}
    ensures Take(u, m, e).stops != m.stops ==> Take(u, m, e).stops == m.stops + [m.pending[0].te.task.id]
  {
    assert forall s :: ValidStateTransition(s, Completed) <==> s in {Running, Stopping};
    if e.SendWork? && m.pending != [] && m.pending[0].Event? {
      DispatchStops(u, m.(pending := m.pending[1..]), m.pending[0].te, e.selected, e.post);
    }
  }

  // ---------------------------------------------------------------- updates

  /** The steps by which updateTasks takes over the list of one worker. */
  function UpdateSteps(reports: seq<Task>): seq<Step> {
    seq(|reports|, i requires 0 <= i < |reports| => Step.UpdateTask(reports[i]))
  }

  lemma FirstUpdate(reports: seq<Task>, rest: seq<Step>)
    requires reports != []
    ensures var es := UpdateSteps(reports) + rest;
      es != [] && es[0] == Step.UpdateTask(reports[0]) && es[1..] == UpdateSteps(reports[1..]) + rest
  {
  }

  /** The last report that reaches the variable made for task `n`. */
  function LastHit(shared: bool, st: TaskStore, reports: seq<Task>, n: Id): Option<Task>
    requires forall k :: k in st.keys ==> st.keys[k] in st.cells
    decreases |reports|
  {
    if reports == [] then None
    else
      var later := LastHit(shared, Updated(shared, st, reports[0]), reports[1..], n);
      if later.Some? then later
      else if reports[0].id in st.keys && st.keys[reports[0].id] == n then Some(reports[0])
      else None
  }

  lemma OneReport(shared: bool, st: TaskStore, reported: Task, n: Id)
    requires StoreShaped(shared, st) && n in st.cells
    ensures var st' := Updated(shared, st, reported);
      && StoreShaped(shared, st') && st'.cells.Keys == st.cells.Keys
      && st'.cells[n] == if reported.id in st.keys && st.keys[reported.id] == n then Refreshed(st.cells[n], reported)
                         else st.cells[n]
  {
    UpdateFollows(shared, st, reported);
  }

  /** After an update every stored task has the status of the last report that reached it, and is otherwise,
      restart count included, as it was before; reports on tasks that are not stored add nothing. */
  lemma {:induction false} LastReportWins(u: Setup, m: Manager, reports: seq<Task>, n: Id)
    requires ValidRun(u, m, UpdateSteps(reports)) && n in m.taskDb.cells
    ensures var cells', last := Run(u, m, UpdateSteps(reports)).taskDb.cells, LastHit(u.memory, m.taskDb, reports, n);
      && cells'.Keys == m.taskDb.cells.Keys
      && cells'[n] == if last.Some? then Refreshed(m.taskDb.cells[n], last.value) else m.taskDb.cells[n]
    decreases |reports|
  {
    if reports != [] {
      FirstUpdate(reports, []);
      assert UpdateSteps(reports) + [] == UpdateSteps(reports);
      assert UpdateSteps(reports[1..]) + [] == UpdateSteps(reports[1..]);
      OneReport(u.memory, m.taskDb, reports[0], n);
      LastReportWins(u, Take(u, m, Step.UpdateTask(reports[0])), reports[1..], n);
    }
  }

  /** Nor is a variable added. */
  lemma {:induction false} NoneIsAdded(u: Setup, m: Manager, reports: seq<Task>)
    requires ValidRun(u, m, UpdateSteps(reports))
    ensures Run(u, m, UpdateSteps(reports)).taskDb.cells.Keys == m.taskDb.cells.Keys
    decreases |reports|
  {
    if reports != [] {
      FirstUpdate(reports, []);
      assert UpdateSteps(reports) + [] == UpdateSteps(reports);
      assert UpdateSteps(reports[1..]) + [] == UpdateSteps(reports[1..]);
      UpdateFollows(u.memory, m.taskDb, reports[0]);
      NoneIsAdded(u, Take(u, m, Step.UpdateTask(reports[0])), reports[1..]);
    }
  }

  /** The last report on task `id`. */
  function LastReport(reports: seq<Task>, id: Id): Option<Task> {
    if reports == [] then None
    else
      var later := LastReport(reports[1..], id);
      if later.Some? then later else if reports[0].id == id then Some(reports[0]) else None
  }

  /** While every task is under its own id, the reports that reach it are the reports on it. */
  lemma {:induction false} ReportsReachTheirTasks(shared: bool, st: TaskStore, reports: seq<Task>, id: Id)
    requires Own(st) && id in st.cells
    ensures LastHit(shared, st, reports, id) == LastReport(reports, id)
    decreases |reports|
  {
    if reports != [] {
      ReportsReachTheirTasks(shared, Updated(shared, st, reports[0]), reports[1..], id);
    }
  }

  // ---------------------------------------------------------------- events

  function EventsOf(items: seq<Item>): seq<TaskEvent> {
    if items == [] then [] else (if items[0].Event? then [items[0].te] else []) + EventsOf(items[1..])
  }

  function Bares(items: seq<Item>): nat {
    if items == [] then 0 else (if items[0].Bare? then 1 else 0) + Bares(items[1..])
  }

  lemma {:induction false} Enqueued(items: seq<Item>, x: Item)
    ensures EventsOf(items + [x]) == EventsOf(items) + EventsOf([x]) && Bares(items + [x]) == Bares(items) + Bares([x])
    decreases |items|
  {
    if items == [] {
      assert items + [x] == [x];
    } else {
      var first := if items[0].Event? then [items[0].te] else [];
      Enqueued(items[1..], x);
      assert (items + [x])[1..] == items[1..] + [x] && (items + [x])[0] == items[0];
      Associates(first, EventsOf(items[1..]), EventsOf([x]));
    }
  }

  /** The events recorded so far and those still queued are those that were added, in that order. */
  ghost predicate EventsConserved(m: Manager) {
    m.added == m.recorded + EventsOf(m.pending)
  }

  /** Besides what it held at the start, the event store has exactly the recorded ids, each with an event recorded
      under it. */
  ghost predicate Recorded(u: Setup, m: Manager) {
    && (forall te :: te in m.recorded ==> te.id in m.eventDb)
    && (forall id :: id in m.eventDb ==> m.eventDb[id].id == id)
    && (forall id :: id in m.eventDb ==>
          m.eventDb[id] in m.recorded || (id in Found(u).events && m.eventDb[id] == Found(u).events[id]))
  }

  /** The step places a task, and its POST gets no connection. */
  predicate PostFails(m: Manager, e: Step) {
    Places(m, e) && e.post.NoConnection?
  }

  /** Bare tasks that are queued or, by the crash, taken. */
  function BareTasks(m: Manager): nat {
    Bares(m.pending) + (if m.crashed then 1 else 0)
  }

  /** What SendWork does to queue and event store when an event is first. */
  lemma SendTakesEvent(u: Setup, m: Manager, e: Step)
    requires Shaped(u, m) && Possible(u, m, e) && e.SendWork? && m.pending != [] && m.pending[0].Event?
    ensures var m', te := Take(u, m, e), m.pending[0].te;
      && m'.added == m.added && m'.recorded == m.recorded + [te] && m'.eventDb == m.eventDb[te.id := te]
      && m'.crashed == m.crashed
      && m'.pending == m.pending[1..] + (if PostFails(m, e) then [Bare(AsScheduled(te.task))] else [])
  {
    SendFields(u, m, e);
  }

  lemma RecordOne(u: Setup, m: Manager, m': Manager, te: TaskEvent, left: seq<Item>)
    requires EventsConserved(m) && Recorded(u, m) && m.pending != [] && m.pending[0] == Event(te)
    requires m'.recorded == m.recorded + [te] && m'.eventDb == m.eventDb[te.id := te]
    requires m'.added == m.added && m'.crashed == m.crashed
    requires m'.pending == m.pending[1..] + left && (left == [] || (|left| == 1 && left[0].Bare?))
    ensures EventsConserved(m') && Recorded(u, m') && BareTasks(m') == BareTasks(m) + |left|
  {
    if left != [] {
      Enqueued(m.pending[1..], left[0]);
      assert left == [left[0]];
    } else {
      assert m'.pending == m.pending[1..];
    }
  }

  lemma StepKeepsEvents(u: Setup, m: Manager, e: Step)
    requires Shaped(u, m) && Possible(u, m, e) && EventsConserved(m) && Recorded(u, m)
    ensures var m' := Take(u, m, e);
      EventsConserved(m') && Recorded(u, m') && BareTasks(m') == BareTasks(m) + (if PostFails(m, e) then 1 else 0)
  {
    if e.AddTask? {
      Enqueued(m.pending, Event(e.te));
    } else if e.SendWork? && m.pending != [] && m.pending[0].Event? {
      var m', te := Take(u, m, e), m.pending[0].te;
      SendTakesEvent(u, m, e);
      RecordOne(u, m, m', te, if PostFails(m, e) then [Bare(AsScheduled(te.task))] else []);
    }
  }

  ghost function FailedPosts(u: Setup, m: Manager, es: seq<Step>): nat
    requires ValidRun(u, m, es)
    decreases |es|
  {
    if es == [] then 0 else (if PostFails(m, es[0]) then 1 else 0) + FailedPosts(u, Take(u, m, es[0]), es[1..])
  }

  lemma {:induction false} RunKeepsEvents(u: Setup, m: Manager, es: seq<Step>)
    requires ValidRun(u, m, es) && EventsConserved(m) && Recorded(u, m)
    ensures var m' := Run(u, m, es);
      && EventsConserved(m') && Recorded(u, m')
      && BareTasks(m') == BareTasks(m) + FailedPosts(u, m, es)
    decreases |es|
  {
    if es != [] {
      StepKeepsEvents(u, m, es[0]);
      RunKeepsEvents(u, Take(u, m, es[0]), es[1..]);
    }
  }

  ghost predicate DistinctEvents(tes: seq<TaskEvent>) {
    forall i, j :: 0 <= i < j < |tes| ==> tes[i].id != tes[j].id
  }

  lemma PartsAreDistinct(front: seq<TaskEvent>, back: seq<TaskEvent>, x: TaskEvent, y: TaskEvent)
    requires DistinctEvents(front + back) && x in front && y in back
    ensures x.id != y.id
  {
    var i :| 0 <= i < |front| && front[i] == x;
    var j :| 0 <= j < |back| && back[j] == y;
    assert (front + back)[i] == x && (front + back)[|front| + j] == y;
  }

  lemma SameIdSameEvent(tes: seq<TaskEvent>, x: TaskEvent, y: TaskEvent)
    requires DistinctEvents(tes) && x in tes && y in tes && x.id == y.id
    ensures x == y
  {
  }

  /** Events are recorded in the order of their arrival; with distinct ids, also from those of events that were in
      the file, each one is either still queued or in the event store, and never both. */
  lemma EventsAreConserved(u: Setup, es: seq<Step>)
    requires Keyed(Found(u)) && ValidRun(u, NewManager(u), es)
    ensures var m := Run(u, NewManager(u), es);
      && m.added == m.recorded + EventsOf(m.pending)
      && (DistinctEvents(m.added) ==> forall te :: te in m.added && te.id !in Found(u).events ==>
            && (te in EventsOf(m.pending) <==> te.id !in m.eventDb)
            && (te.id in m.eventDb ==> m.eventDb[te.id] == te))
  {
    RunKeepsEvents(u, NewManager(u), es);
    var m := Run(u, NewManager(u), es);
    if DistinctEvents(m.added) {
      forall te | te in m.added && te.id !in Found(u).events
        ensures te in EventsOf(m.pending) <==> te.id !in m.eventDb
        ensures te.id in m.eventDb ==> m.eventDb[te.id] == te
      {
        if te.id in m.eventDb {
          SameIdSameEvent(m.added, te, m.eventDb[te.id]);
          if te in EventsOf(m.pending) {
            PartsAreDistinct(m.recorded, EventsOf(m.pending), te, te);
          }
        }
      }
    }
  }

  /** Each failed POST leaves one bare task behind, and the manager crashes on nothing else: as long as every
      worker could be reached it never does. */
  lemma OnlyFailedPostsCrash(u: Setup, es: seq<Step>)
    requires Keyed(Found(u)) && ValidRun(u, NewManager(u), es)
    ensures var m := Run(u, NewManager(u), es);
      BareTasks(m) == FailedPosts(u, NewManager(u), es)
  {
    RunKeepsEvents(u, NewManager(u), es);
  }

  // ---------------------------------------------------------------- restarts

  /** The step restarts the task in the variable made for task `n`. */
  predicate Restarts(m: Manager, e: Step, n: Id) {
    && e.CheckHealth? && e.name == n && n in m.taskDb.cells
    && m.taskDb.cells[n].state == Failed && m.taskDb.cells[n].restartCount < 3
  }

  ghost function RestartsOf(u: Setup, m: Manager, es: seq<Step>, n: Id): nat
    requires ValidRun(u, m, es)
    decreases |es|
  {
    if es == [] then 0 else (if Restarts(m, es[0], n) then 1 else 0) + RestartsOf(u, Take(u, m, es[0]), es[1..], n)
  }

  /** The step places the task with id `n`. */
  predicate PlacesTask(m: Manager, e: Step, n: Id) {
    Places(m, e) && m.pending[0].te.task.id == n
  }

  /** A placement stores the task anew, restart count included, also over one that was found in the file. */
  lemma PlacementStoresAnew(u: Setup, m: Manager, e: Step, n: Id)
    requires Shaped(u, m) && Possible(u, m, e) && PlacesTask(m, e, n)
    ensures n !in m.taskWorkerMap && n in Take(u, m, e).taskWorkerMap && n in Take(u, m, e).taskDb.cells
    ensures Take(u, m, e).taskDb.cells[n] ==
      if e.post.Decoded? && u.memory then e.post.reply else AsScheduled(m.pending[0].te.task)
  {
  }

  /** Nothing is placed under the id `n`. */
  ghost predicate LeftAlone(u: Setup, m: Manager, es: seq<Step>, n: Id)
    requires ValidRun(u, m, es)
    decreases |es|
  {
    es == [] || (!PlacesTask(m, es[0], n) && LeftAlone(u, Take(u, m, es[0]), es[1..], n))
  }

  /** An assigned task is never placed again. */
  lemma {:induction false} AssignedIsLeftAlone(u: Setup, m: Manager, es: seq<Step>, n: Id)
    requires ValidRun(u, m, es) && n in m.taskWorkerMap
    ensures LeftAlone(u, m, es, n)
    decreases |es|
  {
    if es != [] {
      StepKeepsPlacement(u, m, es[0], n);
      AssignedIsLeftAlone(u, Take(u, m, es[0]), es[1..], n);
    }
  }

  lemma SendLeavesVariables(u: Setup, m: Manager, e: Step, n: Id)
    requires Shaped(u, m) && Possible(u, m, e) && e.SendWork? && n in m.taskDb.cells && !PlacesTask(m, e, n)
    ensures n in Take(u, m, e).taskDb.cells && Take(u, m, e).taskDb.cells[n] == m.taskDb.cells[n]
  {
    if m.pending != [] && m.pending[0].Event? {
      SendFields(u, m, e);
    }
  }

  lemma StepCountsRestarts(u: Setup, m: Manager, e: Step, n: Id)
    requires Shaped(u, m) && Possible(u, m, e) && n in m.taskDb.cells && !PlacesTask(m, e, n)
    ensures var cells, cells' := m.taskDb.cells, Take(u, m, e).taskDb.cells;
      && n in cells'
      && cells'[n].restartCount == cells[n].restartCount + (if Restarts(m, e, n) then 1 else 0)
      && (Restarts(m, e, n) ==>
            cells[n].state == Failed && cells'[n].state == Scheduled && ValidStateTransition(Failed, Scheduled))
  {
    if e.SendWork? {
      SendLeavesVariables(u, m, e, n);
    }
  }

  lemma {:induction false} CountsRestarts(u: Setup, m: Manager, es: seq<Step>, n: Id)
    requires ValidRun(u, m, es) && n in m.taskDb.cells && LeftAlone(u, m, es, n)
    ensures n in Run(u, m, es).taskDb.cells
    ensures var first, restarts := m.taskDb.cells[n].restartCount, RestartsOf(u, m, es, n);
      && Run(u, m, es).taskDb.cells[n].restartCount == first + restarts
      && restarts <= (if first < 3 then 3 - first else 0)
    decreases |es|
  {
    if es != [] {
      StepCountsRestarts(u, m, es[0], n);
      CountsRestarts(u, Take(u, m, es[0]), es[1..], n);
    }
  }

  /** Once a task is placed, or as long as nothing is placed under the id of one that was found in the file: its
      restart count grows by exactly its restarts, and there are never more of these than were left, in whatever
      order health checks, updates and sends come and whatever the replies contain. */
  lemma RestartBudget(u: Setup, m: Manager, es: seq<Step>, n: Id)
    requires ValidRun(u, m, es) && n in m.taskDb.cells && (n in m.taskWorkerMap || LeftAlone(u, m, es, n))
    ensures n in Run(u, m, es).taskDb.cells
    ensures var first, restarts := m.taskDb.cells[n].restartCount, RestartsOf(u, m, es, n);
      && Run(u, m, es).taskDb.cells[n].restartCount == first + restarts
      && restarts <= (if first < 3 then 3 - first else 0)
  {
    if n in m.taskWorkerMap {
      AssignedIsLeftAlone(u, m, es, n);
    }
    CountsRestarts(u, m, es, n);
  }

  /** The same for what is stored under an id, as long as the replies keep their ids. */
  lemma RestartBudgetByKey(u: Setup, m: Manager, es: seq<Step>, id: Id)
    requires ValidRun(u, m, es) && Own(m.taskDb) && RepliesKeepIds(u, m, es) && id in m.taskDb.keys
    requires id in m.taskWorkerMap || LeftAlone(u, m, es, id)
    ensures var st, st' := m.taskDb, Run(u, m, es).taskDb;
      && id in st'.keys && st'.keys[id] in st'.cells
      && Stored(st', id).restartCount == Stored(st, id).restartCount + RestartsOf(u, m, es, id)
      && RestartsOf(u, m, es, id) <=
         (if Stored(st, id).restartCount < 3 then 3 - Stored(st, id).restartCount else 0)
  {
    TasksStayOwnExactlyWhen(u, m, es);
    RestartBudget(u, m, es, id);
  }
}
