/** What each step of the manager leaves, field by field. */
module ManagerOutcomes {
  import opened TaskState
  import opened Tasks
  import opened ManagerModel
  import opened ManagerRuns

  /** A new manager has no work and no assignments, a list per worker, no task counted, and what was in the files if
      its stores are persistent. */
  lemma NewManagerIs(u: Setup)
    ensures var m := NewManager(u);
      && m.pending == [] && m.added == [] && m.recorded == [] && m.stops == [] && m.placements == []
      && m.taskWorkerMap == map[] && !m.crashed
      && (forall w :: w in u.workers <==> w in m.workerTaskMap)
      && (forall w :: w in u.workers ==> m.workerTaskMap[w] == [])
      && |m.taskCounts| == |u.workers| && (forall i :: 0 <= i < |u.workers| ==> m.taskCounts[i] == 0)
      && m.taskDb.cells == (if u.memory then map[] else u.files.tasks)
      && m.eventDb == (if u.memory then map[] else u.files.events)
  {
  }

  /** Status from the report, but for message, exit code and restart count; the rest is kept. */
  predicate IsRefreshed(t: Task, reported: Task, u: Task) {
    && u.state == reported.state && u.startTime == reported.startTime && u.finishTime == reported.finishTime
    && u.containerId == reported.containerId
    && u == t.(state := u.state, startTime := u.startTime, finishTime := u.finishTime, containerId := u.containerId)
  }

  /** A health check restarts exactly the failed tasks that were restarted fewer than three times. */
  predicate Restartable(t: Task) {
    t.state == Failed && t.restartCount < 3
  }

  predicate IsRestarted(t: Task, u: Task) {
    u == t.(state := Scheduled, restartCount := t.restartCount + 1)
  }

  predicate IsChecked(t: Task, u: Task) {
    if Restartable(t) then IsRestarted(t, u) else u == t
  }

  /** What a report does to the variable or row that it reaches, and to no other: the task is refreshed, and can be
      found under the id that it carries. */
  predicate AfterReport(st: TaskStore, reported: Task, st': TaskStore)
    requires reported.id in st.keys ==> st.keys[reported.id] in st.cells
  {
    if reported.id !in st.keys then st' == st
    else
      var n := st.keys[reported.id];
      && n in st'.cells && st'.cells == st.cells[n := st'.cells[n]] && st'.keys == st.keys[st.cells[n].id := n]
      && IsRefreshed(st.cells[n], reported, st'.cells[n])
  }

  /** What a health check does to the variable or row that it looks at, and to no other. */
  predicate AfterCheck(st: TaskStore, name: Id, st': TaskStore) {
    if name !in st.cells || !Restartable(st.cells[name]) then st' == st
    else
      && name in st'.cells && st'.cells == st.cells[name := st'.cells[name]]
      && st'.keys == st.keys[st.cells[name].id := name]
      && IsRestarted(st.cells[name], st'.cells[name])
  }

  lemma ReportOutcome(shared: bool, st: TaskStore, reported: Task)
    requires StoreShaped(shared, st)
    ensures AfterReport(st, reported, Updated(shared, st, reported))
  {
  }

  lemma CheckOutcome(shared: bool, st: TaskStore, name: Id)
    requires StoreShaped(shared, st)
    ensures AfterCheck(st, name, Checked(shared, st, name))
  {
  }

  /** `reports[i]` is the last report on task `id`. */
  predicate LastAt(reports: seq<Task>, id: Id, i: nat) {
    i < |reports| && reports[i].id == id && forall j :: i < j < |reports| ==> reports[j].id != id
  }

  lemma {:induction false} LastReportIs(reports: seq<Task>, id: Id, i: nat)
    requires LastAt(reports, id, i)
    ensures LastReport(reports, id) == Some(reports[i])
    decreases |reports|
  {
    assert forall j :: 0 <= j < |reports| - 1 ==> reports[1..][j] == reports[j + 1];
    if i > 0 {
      LastReportIs(reports[1..], id, i - 1);
    } else {
      NoReport(reports[1..], id);
    }
  }

  lemma {:induction false} NoReport(reports: seq<Task>, id: Id)
    requires forall j :: 0 <= j < |reports| ==> reports[j].id != id
    ensures LastReport(reports, id) == None
    decreases |reports|
  {
    if reports != [] {
      NoReport(reports[1..], id);
    }
  }

  /** What a list of reports leaves of a task that is stored under its own id. */
  ghost predicate AfterReports(t: Task, reports: seq<Task>, u: Task) {
    && (forall i: nat :: LastAt(reports, t.id, i) ==> IsRefreshed(t, reports[i], u))
    && ((forall i :: 0 <= i < |reports| ==> reports[i].id != t.id) ==> u == t)
  }

  /** While tasks are stored under their own ids, every stored task has afterwards what the last report on it says. */
  lemma ReportsOutcome(u: Setup, m: Manager, reports: seq<Task>, id: Id)
    requires ValidRun(u, m, UpdateSteps(reports)) && Own(m.taskDb) && id in m.taskDb.cells
    ensures id in Run(u, m, UpdateSteps(reports)).taskDb.cells
    ensures AfterReports(m.taskDb.cells[id], reports, Run(u, m, UpdateSteps(reports)).taskDb.cells[id])
  {
    LastReportWins(u, m, reports, id);
    ReportsReachTheirTasks(u.memory, m.taskDb, reports, id);
    forall i: nat | LastAt(reports, id, i) ensures LastReport(reports, id) == Some(reports[i]) {
      LastReportIs(reports, id, i);
    }
    if forall i :: 0 <= i < |reports| ==> reports[i].id != id {
      NoReport(reports, id);
    }
  }

  // ---------------------------------------------------------------- sending work

  /** The event is taken off the queue, stored and recorded; the rest of what SendWork does is in the parameters. */
  predicate TakesEvent(m: Manager, m': Manager, te: TaskEvent) {
    && m.pending != [] && m.pending[0] == Event(te)
    && m'.eventDb == m.eventDb[te.id := te] && m'.recorded == m.recorded + [te]
    && m'.added == m.added && m'.crashed == m.crashed
  }

  /** The task stays where it was assigned, and its worker is asked to stop it if the event asks for Completed and the
      stored task is Running or Stopping. */
  predicate AfterKnown(m: Manager, m': Manager, te: TaskEvent)
    requires te.task.id in m.taskDb.keys && m.taskDb.keys[te.task.id] in m.taskDb.cells && m.pending != []
  {
    && m' == m.(pending := m.pending[1..], eventDb := m'.eventDb, recorded := m'.recorded, stops := m'.stops)
    && m'.stops == m.stops +
         if te.state == Completed && m.taskDb.cells[m.taskDb.keys[te.task.id]].state in {Running, Stopping}
         then [te.task.id] else []
  }

  /** The task is listed last for the worker at `i` and known to be there; it is stored as Scheduled, or as the reply
      says that was decoded into its variable, counted if the reply was complete, and queued again, without its event,
      if there was no connection. */
  predicate AfterPlaced(u: Setup, m: Manager, m': Manager, te: TaskEvent, i: nat, post: Post)
    requires i < |u.workers| && u.workers[i] in m.workerTaskMap && |m.taskCounts| == |u.workers| && m.pending != []
  {
    var id, w, t := te.task.id, u.workers[i], te.task.(state := Scheduled);
    && m'.workerTaskMap == m.workerTaskMap[w := m.workerTaskMap[w] + [id]]
    && m'.taskWorkerMap == m.taskWorkerMap[id := w] && m'.placements == m.placements + [i] && m'.stops == m.stops
    && m'.taskDb.keys == m.taskDb.keys[id := id]
    && m'.taskDb.cells == m.taskDb.cells[id := if post.Decoded? && u.memory then post.reply else t]
    && m'.taskCounts == m.taskCounts[i := m.taskCounts[i] + if post.Decoded? && post.complete then 1 else 0]
    && m'.pending == m.pending[1..] + if post.NoConnection? then [Bare(t)] else []
  }

  /** What SendWork does: nothing without work, a failed type assertion on a bare task, and otherwise one of these,
      or, for a new task without a node for it, no more than taking the event. */
  predicate AfterSend(u: Setup, m: Manager, m': Manager, selected: Option<nat>, post: Post)
    requires |m.taskCounts| == |u.workers|
    requires selected.Some? ==> selected.value < |u.workers| && u.workers[selected.value] in m.workerTaskMap
    requires forall k :: k in m.taskWorkerMap ==> k in m.taskDb.keys && m.taskDb.keys[k] in m.taskDb.cells
  {
    if m.pending == [] then m' == m
    else match m.pending[0]
      case Bare(_) => m' == m.(pending := m.pending[1..], crashed := true)
      case Event(te) =>
        && TakesEvent(m, m', te)
        && if te.task.id in m.taskWorkerMap then AfterKnown(m, m', te)
           else if selected.None? then
             m' == m.(pending := m.pending[1..], eventDb := m'.eventDb, recorded := m'.recorded)
           else AfterPlaced(u, m, m', te, selected.value, post)
  }

  lemma KnownOutcome(u: Setup, m: Manager, te: TaskEvent, selected: Option<nat>, post: Post)
    requires te.task.id in m.taskDb.keys && m.taskDb.keys[te.task.id] in m.taskDb.cells
    requires m.pending != [] && te.task.id in m.taskWorkerMap
    requires selected.Some? ==>
      selected.value < |u.workers| && u.workers[selected.value] in m.workerTaskMap && selected.value < |m.taskCounts|
    ensures AfterKnown(m, Dispatch(u, m.(pending := m.pending[1..]), te, selected, post), te)
  {
    assert forall s :: ValidStateTransition(s, Completed) <==> s in {Running, Stopping};
  }

  lemma OverwrittenTwice(cells: map<Id, Task>, id: Id, t: Task, reply: Task)
    ensures cells[id := t][id := reply] == cells[id := reply]
  {
  }

  lemma PlacedOutcome(u: Setup, m: Manager, te: TaskEvent, i: nat, post: Post, r: Manager)
    requires i < |u.workers| && u.workers[i] in m.workerTaskMap && |m.taskCounts| == |u.workers| && m.pending != []
    requires r == m.(pending := m.pending[1..], eventDb := m.eventDb[te.id := te], recorded := m.recorded + [te])
    ensures AfterPlaced(u, m, Place(u, r, te, i, post), te, i, post)
    ensures var m' := Place(u, r, te, i, post);
      m'.eventDb == r.eventDb && m'.recorded == r.recorded && m'.added == m.added && m'.crashed == m.crashed
  {
    if post.Decoded? {
      OverwrittenTwice(m.taskDb.cells, te.task.id, te.task.(state := Scheduled), post.reply);
    }
    assert m.taskCounts[i := m.taskCounts[i] + 0] == m.taskCounts;
    assert m.pending[1..] + [] == m.pending[1..];
  }

  lemma EventOutcome(u: Setup, m: Manager, te: TaskEvent, selected: Option<nat>, post: Post)
    requires Inv(u, m) && m.pending != [] && m.pending[0] == Event(te)
    requires selected.Some? ==> selected.value < |u.workers|
    ensures AfterSend(u, m, Dispatch(u, m.(pending := m.pending[1..]), te, selected, post), selected, post)
  {
    if te.task.id in m.taskWorkerMap {
      KnownOutcome(u, m, te, selected, post);
    } else if selected.Some? {
      PlacedOutcome(u, m, te, selected.value, post,
        m.(pending := m.pending[1..], eventDb := m.eventDb[te.id := te], recorded := m.recorded + [te]));
    }
  }

  lemma SendOutcome(u: Setup, m: Manager, selected: Option<nat>, post: Post)
    requires Inv(u, m) && Possible(u, m, Step.SendWork(selected, post))
    ensures AfterSend(u, m, Take(u, m, Step.SendWork(selected, post)), selected, post)
  {
    if m.pending != [] && m.pending[0].Event? {
      EventOutcome(u, m, m.pending[0].te, selected, post);
    }
  }
}
