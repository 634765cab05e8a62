/** The manager's operations on the heap, over either store and any scheduler. */
module ManagerService {
  import opened TaskState
  import opened Tasks
  import opened Stores
  import opened TaskTable
  import opened Scheduler
  import opened ManagerModel
  import opened ManagerRuns
  import opened ManagerOutcomes
  import opened RoundRobinRuns

  function Counts(nodes: seq<Node>): (counts: seq<int>)
    reads nodes
    ensures |counts| == |nodes| && forall i :: 0 <= i < |nodes| ==> counts[i] == nodes[i].taskCount
  {
    seq(|nodes|, i requires 0 <= i < |nodes| reads nodes => nodes[i].taskCount)
  }

  /** One round of updateTasks, with what the workers answer. */
  function RoundSteps(answers: seq<Option<seq<Task>>>): seq<Step> {
    if answers == [] then []
    else (if answers[0].Some? then UpdateSteps(answers[0].value) else []) + RoundSteps(answers[1..])
  }

  /** What the workers report in one round, in the order of the workers. */
  function AllReports(answers: seq<Option<seq<Task>>>): seq<Task> {
    if answers == [] then []
    else (if answers[0].Some? then answers[0].value else []) + AllReports(answers[1..])
  }

  lemma {:induction false} RoundIsUpdate(answers: seq<Option<seq<Task>>>)
    ensures RoundSteps(answers) == UpdateSteps(AllReports(answers))
    decreases |answers|
  {
    if answers != [] {
      RoundIsUpdate(answers[1..]);
      var first := if answers[0].Some? then answers[0].value else [];
      var rest := AllReports(answers[1..]);
      assert UpdateSteps(first + rest) == UpdateSteps(first) + UpdateSteps(rest);
    }
  }

  /** What a round of updates leaves, if the tasks are stored under their own ids. */
  ghost predicate AfterRound(st: TaskStore, answers: seq<Option<seq<Task>>>, st': TaskStore) {
    && st'.cells.Keys == st.cells.Keys
    && forall id :: id in st.cells ==> AfterReports(st.cells[id], AllReports(answers), st'.cells[id])
  }

  lemma RoundOutcome(u: Setup, m: Manager, answers: seq<Option<seq<Task>>>)
    requires ValidRun(u, m, RoundSteps(answers)) && Own(m.taskDb)
    ensures AfterRound(m.taskDb, answers, Run(u, m, RoundSteps(answers)).taskDb)
  {
    RoundIsUpdate(answers);
    var st' := Run(u, m, RoundSteps(answers)).taskDb;
    forall id | id in m.taskDb.cells
      ensures st'.cells.Keys == m.taskDb.cells.Keys
      ensures AfterReports(m.taskDb.cells[id], AllReports(answers), st'.cells[id])
    {
      LastReportWins(u, m, AllReports(answers), id);
      ReportsOutcome(u, m, AllReports(answers), id);
    }
    NoneIsAdded(u, m, AllReports(answers));
  }

  /** One round of doHealthChecks, over the variables or rows `names`. */
  function CheckSteps(names: seq<Id>): seq<Step> {
    seq(|names|, i requires 0 <= i < |names| => CheckHealth(names[i]))
  }

  /** The checks are a run of the manager. */
  lemma {:induction false} ChecksRun(u: Setup, m: Manager, names: seq<Id>)
    requires Shaped(u, m) && !m.crashed
    ensures ValidRun(u, m, CheckSteps(names))
    ensures Run(u, m, CheckSteps(names)) == m.(taskDb := AllChecked(u.memory, m.taskDb, names))
    ensures Shaped(u, Run(u, m, CheckSteps(names)))
    decreases |names|
  {
    if names != [] {
      RewriteKeepsShape(u, m, CheckHealth(names[0]));
      assert CheckSteps(names)[1..] == CheckSteps(names[1..]);
      ChecksRun(u, Take(u, m, CheckHealth(names[0])), names[1..]);
    }
  }

  predicate Rewrites(es: seq<Step>) {
    forall e :: e in es ==> e.UpdateTask? || e.CheckHealth?
  }

  /** Updates and checks are always possible. */
  lemma {:induction false} RewritesRun(u: Setup, m: Manager, es: seq<Step>)
    requires Shaped(u, m) && !m.crashed && Rewrites(es)
    ensures ValidRun(u, m, es)
    decreases |es|
  {
    if es != [] {
      assert es[0] in es;
      RewriteKeepsShape(u, m, es[0]);
      RewritesRun(u, Take(u, m, es[0]), es[1..]);
    }
  }

  lemma {:induction false} RoundRewrites(answers: seq<Option<seq<Task>>>)
    ensures Rewrites(RoundSteps(answers))
    decreases |answers|
  {
    if answers != [] {
      RoundRewrites(answers[1..]);
    }
  }

  /** Consistent assignments, conserved events and balanced lists. */
  ghost predicate Sound(u: Setup, t: Turn) {
    Inv(u, t.m) && EventsConserved(t.m) && Recorded(u, t.m) && Balanced(u, t)
  }

  lemma NewManagerIsSound(u: Setup)
    requires Keyed(Found(u))
    ensures Sound(u, Turn(NewManager(u), 0))
  {
    InitialInv(u);
  }

  lemma IsNewManager(u: Setup, m: Manager)
    requires m == NewManager(u).(taskCounts := m.taskCounts)
    requires |m.taskCounts| == |u.workers| && forall i :: 0 <= i < |m.taskCounts| ==> m.taskCounts[i] == 0
    ensures m == NewManager(u)
  {
    assert m.taskCounts == NewManager(u).taskCounts;
  }

  lemma StepKeepsSound(u: Setup, t: Turn, e: Step)
    requires Distinct(u.workers) && Sound(u, t) && InTurn(u, t, e)
    ensures Sound(u, Next(u, t, e))
  {
    StepKeepsInv(u, t.m, e);
    StepKeepsEvents(u, t.m, e);
    StepKeepsBalance(u, t, e);
  }

  /** The node is the one that the scheduler has to pick, by what the candidates answer. */
  ghost predicate Picked(
      s: Policy, names: seq<string>, t: Task, q: Question, replies: seq<Replies>, why: Choice, w: Node)
  {
    && |q.kept| == |q.cs| == |replies| && why.k < |q.cs| && w == q.cs[why.k]
    && ((s.ByCost? ==> Distinct(names)) ==> Justified(s, t, q.cs, q.kept, replies, why))
  }

  lemma IsPicked(
      s: Policy, names: seq<string>, nodes: seq<Node>, t: Task, q: Question, replies: seq<Replies>, why: Choice,
      w: Node)
    requires |q.kept| == |q.cs| == |replies| && why.k < |q.cs| && w == q.cs[why.k]
    requires Separate(nodes) && |nodes| == |names| && forall i :: 0 <= i < |nodes| ==> nodes[i].name == names[i]
    requires (s.ByCost? ==> Told(nodes)) ==> Justified(s, t, q.cs, q.kept, replies, why)
    ensures Picked(s, names, t, q, replies, why, w)
  {
    assert Names(nodes) == names;
  }

  class ManagerService {
    const setup: Setup
    const scheduler: Policy
    const nodes: seq<Node>
    const taskDb: TaskTable
    var pending: seq<Item>
    var eventDb: map<Id, TaskEvent>
    var workerTaskMap: map<string, seq<Id>>
    var taskWorkerMap: map<Id, string>
    var crashed: bool
    ghost var added: seq<TaskEvent>
    ghost var recorded: seq<TaskEvent>
    ghost var placements: seq<nat>
    ghost var stops: seq<Id>

    /** The state as a value. */
    ghost function Abs(): Manager
      reads this, nodes, taskDb`rows
    {
      Manager(pending, taskDb.rows, eventDb, workerTaskMap, taskWorkerMap,
              Counts(nodes), crashed, added, recorded, placements, stops)
    }

    ghost predicate NodesFit() {
      && |nodes| == |setup.workers| && Separate(nodes)
      && forall i :: 0 <= i < |nodes| ==> nodes[i].name == setup.workers[i]
    }

    /** The parts fit together. */
    ghost predicate Wired()
      reads taskDb, taskDb.db, taskDb.db.Repr
    {
      taskDb.Valid() && taskDb.memory == setup.memory && NodesFit()
    }

    ghost predicate Valid()
      reads this, taskDb, taskDb.db, taskDb.db.Repr, nodes
    {
      Wired() && Shaped(setup, Abs())
    }

    /** Sets up a manager without assignments; the persistent stores may hold tasks and events from before, in
        `files`.  Schedulers other than "greedy" and "roundrobin" mean E-PVM. */
    constructor (workers: seq<string>, schedulerType: string, memory: bool, files: Files, pow: real -> real)
      requires memory || Keyed(files)
      ensures Valid() && setup == Setup(workers, memory, files)
      ensures Abs() == NewManager(setup) && Sound(setup, Turn(Abs(), 0))
      ensures Named(schedulerType, pow, scheduler)
    {
      var policy := NewPolicy(schedulerType, pow);
      var db := new TaskTable(memory, files.tasks);
      var ns := NewNodes(workers);
      setup := Setup(workers, memory, files);
      scheduler := policy;
      nodes := ns;
      taskDb := db;
      pending, eventDb := [], if memory then map[] else files.events;
      workerTaskMap := map w | w in workers :: [];
      taskWorkerMap := map[];
      crashed := false;
      added, recorded, placements, stops := [], [], [], [];
      new;
      IsNewManager(setup, Abs());
      NewManagerIsSound(setup);
    }

    method AddTask(te: TaskEvent)
      requires Valid() && !crashed
      modifies this
      ensures Valid()
      ensures Abs() == Take(setup, old(Abs()), Step.AddTask(te))
      ensures pending == old(pending) + [Event(te)] && added == old(added) + [te]
    {
      pending := pending + [Event(te)];
      added := added + [te];
      assert Abs() == Take(setup, old(Abs()), Step.AddTask(te));
      StepKeepsShape(setup, old(Abs()), Step.AddTask(te));
    }

    /** The scheduler is asked only for the first event of the queue, and only if its task is new. */
    ghost predicate Asks()
      reads this
    {
      pending != [] && pending[0].Event? && pending[0].te.task.id !in taskWorkerMap
    }

    /** `q` is what the scheduler is asked, and what the nodes answer fits. */
    ghost predicate Answers(t: Task, replies: seq<Replies>, q: Question)
      reads this, nodes, q.cs
    {
      IsAsked(scheduler, t, nodes, q) && |replies| == |q.cs|
    }

    ghost function Turns(): set<object> {
      if scheduler.ByTurn? then {scheduler.state} else {}
    }

    /** The round-robin scheduler is asked about all nodes. */
    ghost function AllAsked(): Question
      reads nodes
    {
      Question(nodes, seq(|nodes|, i requires 0 <= i < |nodes| reads nodes =>
                                     Kept(nodes[i].memoryAllocated, nodes[i].taskCount)))
    }

    /** Where the round-robin scheduler stands after it was asked. */
    ghost function AfterAsking(last: nat): nat {
      if nodes == [] then last else NextWorker(last, |nodes|)
    }

    /** Where `w` stands among the nodes; at `hint`, if it is there. */
    ghost method Position(w: Node, hint: nat) returns (i: nat)
      requires w in nodes && Separate(nodes) && (hint < |nodes| ==> nodes[hint] == w)
      ensures i < |nodes| && nodes[i] == w && (hint < |nodes| ==> i == hint)
    {
      i :| 0 <= i < |nodes| && nodes[i] == w;
    }

    /** Asking the scheduler reaches nodes, their statistics and the scheduler only. */
    lemma KindsApart()
      ensures forall c: TaskCell :: c !in Footprint(nodes) && c !in Turns()
      ensures this !in Footprint(nodes) && this !in Turns()
      ensures taskDb !in Footprint(nodes) && taskDb !in Turns()
      ensures taskDb.db !in Footprint(nodes) && taskDb.db !in Turns()
    {
    }

    method Ask(t: Task, replies: seq<Replies>, ghost q: Question) returns (w: Node?, ghost i: nat, ghost why: Choice)
      requires NodesFit() && Answers(t, replies, q)
      modifies Footprint(nodes), Turns()
      ensures forall n :: n in nodes ==> n.taskCount == old(n.taskCount)
      ensures w == null <==> q.cs == []
      ensures w != null ==> Picked(scheduler, setup.workers, t, q, replies, why, w) && i < |nodes| && nodes[i] == w
      ensures scheduler.ByTurn? ==> scheduler.state.lastWorker == AfterAsking(old(scheduler.state.lastWorker))
      ensures scheduler.ByTurn? && nodes != [] && Distinct(setup.workers) ==> i == scheduler.state.lastWorker
    {
      i := 0;
      assert Names(nodes) == setup.workers;
      ghost var cs, k, scores;
      w, cs, k, scores := SelectWorker(scheduler, t, nodes, replies, q);
      why := Choice(k, scores);
      if w != null {
        IsPicked(scheduler, setup.workers, nodes, t, q, replies, why, w);
        i := Position(w, if scheduler.ByTurn? then k else |nodes|);
      }
    }

    method Choose(t: Task, replies: seq<Replies>, ghost q: Question) returns (w: Node?, ghost i: nat, ghost why: Choice)
      requires NodesFit() && Answers(t, replies, q)
      modifies Footprint(nodes), Turns()
      ensures Counts(nodes) == old(Counts(nodes))
      ensures unchanged(this) && unchanged(taskDb) && unchanged(taskDb.db) && unchanged(taskDb.db.Repr)
      ensures w != null ==> i < |nodes| && nodes[i] == w
      ensures w == null <==> q.cs == []
      ensures w != null ==> Picked(scheduler, setup.workers, t, q, replies, why, w)
      ensures scheduler.ByTurn? ==> scheduler.state.lastWorker == AfterAsking(old(scheduler.state.lastWorker))
      ensures scheduler.ByTurn? && nodes != [] && Distinct(setup.workers) ==> i == scheduler.state.lastWorker
    {
      KindsApart();
      w, i, why := Ask(t, replies, q);
      assert Counts(nodes) == old(Counts(nodes));
    }

    /** Notes that the task goes to `w`. */
    method Assign(id: Id, w: Node, ghost i: nat)
      requires w.name in workerTaskMap
      modifies `workerTaskMap, `taskWorkerMap, `placements
      ensures workerTaskMap == old(workerTaskMap)[w.name := old(workerTaskMap)[w.name] + [id]]
      ensures taskWorkerMap == old(taskWorkerMap)[id := w.name] && placements == old(placements) + [i]
    {
      workerTaskMap := workerTaskMap[w.name := workerTaskMap[w.name] + [id]];
      taskWorkerMap := taskWorkerMap[id := w.name];
      placements := placements + [i];
    }

    method CountTask(w: Node, ghost i: nat)
      requires Separate(nodes) && i < |nodes| && nodes[i] == w
      modifies w`taskCount
      ensures Counts(nodes) == old(Counts(nodes))[i := old(Counts(nodes))[i] + 1]
    {
      w.taskCount := w.taskCount + 1;
    }

    /** A reply with status 201 is decoded into the task's variable ... */
    method DecodeReply(id: Id, c: TaskCell, reply: Task, ghost post: Post)
      requires Wired() && c.key == id && (setup.memory ==> c in taskDb.db.Repr) && post.Decoded? && post.reply == reply
      modifies taskDb`rows, taskDb.db`contents, taskDb.db`held, c
      ensures Wired() && taskDb.rows == PostedDb(setup, old(taskDb.rows), id, post)
      ensures Counts(nodes) == old(Counts(nodes))
    {
      taskDb.AssignThrough(c, reply);
      assert Counts(nodes) == old(Counts(nodes));
    }

    /** ... and the task counted if it was complete. */
    method HandleReply(te: TaskEvent, c: TaskCell, w: Node, ghost i: nat, reply: Task, complete: bool)
      requires Wired() && i < |nodes| && nodes[i] == w
      requires c.key == te.task.id && (setup.memory ==> c in taskDb.db.Repr)
      modifies taskDb`rows, taskDb.db`contents, taskDb.db`held, c, w`taskCount
      ensures Wired() && taskDb.rows == PostedDb(setup, old(taskDb.rows), te.task.id, Decoded(reply, complete))
      ensures Counts(nodes) == PostedCounts(old(Counts(nodes)), i, Decoded(reply, complete))
    {
      DecodeReply(te.task.id, c, reply, Decoded(reply, complete));
      if complete {
        CountTask(w, i);
      }
    }

    /** How the request to the worker ends. */
    method HandlePost(te: TaskEvent, c: TaskCell, w: Node, ghost i: nat, post: Post)
      requires Wired() && i < |nodes| && nodes[i] == w
      requires c.v == AsScheduled(te.task) && c.key == te.task.id && (setup.memory ==> c in taskDb.db.Repr)
      modifies `pending, taskDb`rows, taskDb.db, c, w`taskCount
      ensures Wired() && pending == PostedQueue(old(pending), te.task, post)
      ensures taskDb.rows == PostedDb(setup, old(taskDb.rows), te.task.id, post)
      ensures Counts(nodes) == PostedCounts(old(Counts(nodes)), i, post)
    {
      match post {
        case NoConnection =>
          pending := pending + [Bare(c.v)];
        case Refused =>
        case Decoded(reply, complete) =>
          HandleReply(te, c, w, i, reply, complete);
      }
    }

    /** There is a list for the node at `i`, and in memory no variable yet for the task. */
    ghost predicate Placeable(te: TaskEvent, i: nat)
      reads this, taskDb`rows
    {
      && i < |nodes| == |setup.workers| && setup.workers[i] in workerTaskMap
      && (setup.memory ==> te.task.id !in taskDb.rows.cells)
    }

    /** Notes that the task goes to `w`, and stores it as Scheduled. */
    method PlaceTask(te: TaskEvent, w: Node, ghost i: nat) returns (c: TaskCell)
      requires Wired() && Placeable(te, i) && nodes[i] == w
      modifies `workerTaskMap, `taskWorkerMap, `placements, taskDb, taskDb.db
      ensures Wired() && Abs() == Placed(setup, old(Abs()), te, i)
      ensures c.v == AsScheduled(te.task) && c.key == te.task.id && fresh(c) && (setup.memory ==> c in taskDb.db.Repr)
    {
      Assign(te.task.id, w, i);
      c := taskDb.Add(AsScheduled(te.task));
      assert Counts(nodes) == old(Counts(nodes));
    }

    /** Places the task on the selected worker and sends it there. */
    method SendTo(te: TaskEvent, w: Node, ghost i: nat, post: Post)
      requires Wired() && Placeable(te, i) && nodes[i] == w
      modifies `workerTaskMap, `taskWorkerMap, `placements, `pending, taskDb, taskDb.db, w`taskCount
      ensures Wired() && Abs() == Place(setup, old(Abs()), te, i, post)
    {
      var c := PlaceTask(te, w, i);
      ghost var placed := Abs();
      HandlePost(te, c, w, i, post);
      assert Abs() == Posted(setup, placed, te, i, post);
    }

    /** SendWork for an event whose task has no worker yet. */
    method SendNew(te: TaskEvent, replies: seq<Replies>, post: Post, ghost q: Question)
      returns (ghost selected: Option<nat>, ghost why: Choice)
      requires Wired() && Shaped(setup, Abs()) && Answers(te.task, replies, q) && te.task.id !in taskWorkerMap
      modifies `workerTaskMap, `taskWorkerMap, `placements, `pending, taskDb, taskDb.db, Footprint(nodes), Turns()
      ensures Wired()
      ensures selected.Some? ==> selected.value < |setup.workers|
      ensures Abs() == if selected.None? then old(Abs()) else Place(setup, old(Abs()), te, selected.value, post)
      ensures selected.None? <==> q.cs == []
      ensures selected.Some? ==>
        Picked(scheduler, setup.workers, te.task, q, replies, why, nodes[selected.value])
      ensures scheduler.ByTurn? ==> scheduler.state.lastWorker == AfterAsking(old(scheduler.state.lastWorker))
      ensures scheduler.ByTurn? && nodes != [] && Distinct(setup.workers) ==>
        selected == Some(scheduler.state.lastWorker)
    {
      selected := None;
      var w;
      ghost var i;
      KindsApart();
      w, i, why := Choose(te.task, replies, q);
      assert Wired() && Abs() == old(Abs());
      if w != null {
        selected := Some(i);
        assert w in nodes && w in Footprint(nodes);
        SendTo(te, w, i, post);
      }
    }

    /** SendWork for an event whose task has a worker. */
    method SendStop(te: TaskEvent)
      requires Wired() && Shaped(setup, Abs())
      modifies `stops
      ensures stops == if ShouldStop(Abs(), te) then old(stops) + [te.task.id] else old(stops)
    {
      var c := taskDb.db.Get(te.task.id);
      if c.Some? && te.state == Completed && ValidStateTransition(c.value.v.state, Completed) {
        stops := stops + [te.task.id];
      }
    }

    /** Stores the first event of the queue in the event store. */
    method TakeEvent() returns (te: TaskEvent)
      requires Wired() && pending != [] && pending[0].Event?
      modifies `pending, `eventDb, `recorded
      ensures te == old(pending)[0].te && Wired()
      ensures Abs() == old(Abs()).(pending := old(pending)[1..], eventDb := old(eventDb)[te.id := te],
                                   recorded := old(recorded) + [te])
    {
      te := pending[0].te;
      pending := pending[1..];
      eventDb := eventDb[te.id := te];
      recorded := recorded + [te];
    }

    /** SendWork when an event is first. */
    method SendEvent(replies: seq<Replies>, post: Post, ghost q: Question)
      returns (ghost selected: Option<nat>, ghost why: Choice)
      requires Valid() && pending != [] && pending[0].Event?
      requires Asks() ==> Answers(pending[0].te.task, replies, q)
      modifies this, taskDb, taskDb.db, Footprint(nodes), Turns()
      ensures Wired() && (selected.Some? ==> selected.value < |setup.workers|)
      ensures Abs() == Dispatch(setup, old(Abs()).(pending := old(pending)[1..]), old(pending)[0].te, selected, post)
      ensures old(Asks()) ==> (selected.None? <==> q.cs == [])
      ensures old(Asks()) && selected.Some? ==>
        Picked(scheduler, setup.workers, old(pending)[0].te.task, q, replies, why, nodes[selected.value])
      ensures old(Asks()) && scheduler.ByTurn? && nodes != [] && Distinct(setup.workers) ==>
        selected == Some(scheduler.state.lastWorker)
      ensures scheduler.ByTurn? ==>
        var last := old(scheduler.state.lastWorker);
        scheduler.state.lastWorker == if old(Asks()) then AfterAsking(last) else last
    {
      selected, why := None, Choice(0, map[]);
      var te := TakeEvent();
      if te.task.id in taskWorkerMap {
        SendStop(te);
      } else {
        KindsApart();
        selected, why := SendNew(te, replies, post, q);
      }
    }

    /** Takes the first item off the queue.  `selected` is the node that the scheduler chose, if it was asked
        and found one; the round-robin scheduler chooses the next one in turn. */
    method SendWork(replies: seq<Replies>, post: Post, ghost q: Question)
      returns (ghost selected: Option<nat>, ghost why: Choice)
      requires Valid() && Possible(setup, Abs(), Step.SendWork(None, post))
      requires Asks() ==> Answers(pending[0].te.task, replies, q)
      modifies this, taskDb, taskDb.db, Footprint(nodes), Turns()
      ensures Valid() && (selected.Some? ==> selected.value < |setup.workers|)
      ensures Abs() == Take(setup, old(Abs()), Step.SendWork(selected, post))
      ensures old(Asks()) ==> (selected.None? <==> q.cs == [])
      ensures old(Asks()) && selected.Some? ==>
        Picked(scheduler, setup.workers, old(pending)[0].te.task, q, replies, why, nodes[selected.value])
      ensures old(Asks()) && scheduler.ByTurn? && nodes != [] && Distinct(setup.workers) ==>
        selected == Some(scheduler.state.lastWorker)
      ensures scheduler.ByTurn? ==>
        var last := old(scheduler.state.lastWorker);
        scheduler.state.lastWorker == if old(Asks()) then AfterAsking(last) else last
      ensures Inv(setup, old(Abs())) ==> AfterSend(setup, old(Abs()), Abs(), selected, post)
    {
      selected, why := None, Choice(0, map[]);
      if pending == [] {
        return;
      }
      if pending[0].Bare? {
        pending := pending[1..];
        crashed := true;
        return;
      }
      selected, why := SendEvent(replies, post, q);
      if Inv(setup, old(Abs())) {
        SendOutcome(setup, old(Abs()), selected, post);
      }
      StepKeepsShape(setup, old(Abs()), Step.SendWork(selected, post));
    }

    /** ProcessTasks for as many rounds as there are outcomes of POSTs, under round robin: whatever is queued and
        however the POSTs end, the assignments stay consistent, the events conserved, and the lists balanced. */
    method ProcessTasks(replies: seq<Replies>, posts: seq<Post>)
      requires Valid() && !crashed && scheduler.ByTurn? && |replies| == |nodes| && Distinct(setup.workers)
      requires Sound(setup, Turn(Abs(), scheduler.state.lastWorker))
      modifies this, taskDb, taskDb.db, Footprint(nodes), Turns()
      ensures Valid() && Sound(setup, Turn(Abs(), scheduler.state.lastWorker))
    {
      for i := 0 to |posts|
        invariant Valid() && Sound(setup, Turn(Abs(), scheduler.state.lastWorker))
      {
        if crashed {
          return;
        }
        ghost var before := Turn(Abs(), scheduler.state.lastWorker);
        ghost var selected, _ := SendWork(replies, posts[i], AllAsked());
        ghost var e := Step.SendWork(selected, posts[i]);
        assert InTurn(setup, before, e);
        assert Turn(Abs(), scheduler.state.lastWorker) == Next(setup, before, e);
        StepKeepsSound(setup, before, e);
      }
    }

    // -------------------------------------------------------------- updates from workers

    /** One round of the inner loop of updateTasks. */
    method UpdateTask(reported: Task)
      requires Valid() && !crashed
      modifies taskDb, taskDb.db, taskDb.db.Repr
      ensures Valid() && fresh(taskDb.db.Repr - old(taskDb.db.Repr))
      ensures Abs() == Take(setup, old(Abs()), Step.UpdateTask(reported))
      ensures AfterReport(old(taskDb.rows), reported, taskDb.rows)
    {
      RewriteKeepsShape(setup, Abs(), Step.UpdateTask(reported));
      taskDb.Update(reported);
      assert Counts(nodes) == old(Counts(nodes));
    }

    /** Takes over the list of one worker; `rest` are steps that are still to come. */
    method UpdateFromWorker(reports: seq<Task>, ghost rest: seq<Step>)
      requires Valid() && ValidRun(setup, Abs(), UpdateSteps(reports) + rest)
      modifies taskDb, taskDb.db, taskDb.db.Repr
      ensures Valid() && fresh(taskDb.db.Repr - old(taskDb.db.Repr))
      ensures ValidRun(setup, Abs(), rest)
      ensures Run(setup, Abs(), rest) == Run(setup, old(Abs()), UpdateSteps(reports) + rest)
    {
      for i := 0 to |reports|
        invariant Valid() && fresh(taskDb.db.Repr - old(taskDb.db.Repr))
        invariant ValidRun(setup, Abs(), UpdateSteps(reports[i..]) + rest)
        invariant Run(setup, Abs(), UpdateSteps(reports[i..]) + rest) ==
          Run(setup, old(Abs()), UpdateSteps(reports) + rest)
      {
        FirstUpdate(reports[i..], rest);
        assert reports[i..][1..] == reports[i + 1..];
        UpdateTask(reports[i]);
      }
      assert UpdateSteps(reports[|reports|..]) + rest == rest;
    }

    /** `answers` are the task lists that the workers answer with, in the order of the workers; no list
        means that the worker could not be reached or refused. */
    method UpdateTasks(answers: seq<Option<seq<Task>>>)
      requires Valid() && |answers| == |setup.workers| && !crashed
      modifies taskDb, taskDb.db, taskDb.db.Repr
      ensures Valid() && ValidRun(setup, old(Abs()), RoundSteps(answers))
      ensures Abs() == Run(setup, old(Abs()), RoundSteps(answers))
      ensures Own(old(taskDb.rows)) ==> AfterRound(old(taskDb.rows), answers, taskDb.rows)
    {
      RoundRewrites(answers);
      RewritesRun(setup, Abs(), RoundSteps(answers));
      if Own(taskDb.rows) {
        RoundOutcome(setup, Abs(), answers);
      }
      for i := 0 to |setup.workers|
        invariant Valid() && fresh(taskDb.db.Repr - old(taskDb.db.Repr))
        invariant ValidRun(setup, Abs(), RoundSteps(answers[i..]))
        invariant Run(setup, Abs(), RoundSteps(answers[i..])) == Run(setup, old(Abs()), RoundSteps(answers))
      {
        assert answers[i..][0] == answers[i] && answers[i..][1..] == answers[i + 1..];
        if answers[i].Some? {
          UpdateFromWorker(answers[i].value, RoundSteps(answers[i + 1..]));
        } else {
          assert RoundSteps(answers[i..]) == RoundSteps(answers[i + 1..]);
        }
      }
    }

    // -------------------------------------------------------------- health checks

    /** `order` is the order in which the store lists its keys. */
    method DoHealthChecks(order: seq<Id>) returns (resubmitted: seq<Task>)
      requires Valid() && !crashed && NoRepeats(order) && forall id :: id in order ==> id in taskDb.rows.keys
      modifies taskDb, taskDb.db, taskDb.db.Repr
      ensures Valid()
      ensures var names := Listed(old(taskDb.rows), order);
        && ValidRun(setup, old(Abs()), CheckSteps(names)) && Abs() == Run(setup, old(Abs()), CheckSteps(names))
        && resubmitted == Resubmitted(setup.memory, old(taskDb.rows), names)
      ensures Own(old(taskDb.rows)) ==> AfterChecks(old(taskDb.rows), order, taskDb.rows, resubmitted)
    {
      ChecksRun(setup, Abs(), Listed(taskDb.rows, order));
      resubmitted := taskDb.CheckListed(order);
      assert Counts(nodes) == old(Counts(nodes));
    }
  }

  /** The scheduler of that name. */
  ghost predicate Named(schedulerType: string, pow: real -> real, p: Policy)
    reads if p.ByTurn? then {p.state} else {}
  {
    if schedulerType == "greedy" then p == ByLoad
    else if schedulerType == "roundrobin" then p.ByTurn? && p.state.lastWorker == 0
    else p == ByCost(pow)
  }

  method NewPolicy(schedulerType: string, pow: real -> real) returns (p: Policy)
    ensures Named(schedulerType, pow, p)
    ensures p.ByTurn? ==> fresh(p.state)
  {
    var turns := new RoundRobin();
    p := match schedulerType
      case "greedy" => ByLoad
      case "roundrobin" => ByTurn(turns)
      case _ => ByCost(pow);
  }

  method NewNodes(workers: seq<string>) returns (nodes: seq<Node>)
    ensures |nodes| == |workers| && Separate(nodes)
    ensures forall i :: 0 <= i < |nodes| ==> nodes[i].name == workers[i] && nodes[i].taskCount == 0 && fresh(nodes[i])
  {
    nodes := [];
    for i := 0 to |workers|
      invariant |nodes| == i && Separate(nodes)
      invariant forall j :: 0 <= j < i ==>
        nodes[j].name == workers[j] && nodes[j].taskCount == 0 && fresh(nodes[j]) && fresh(nodes[j].stats)
    {
      var n := new Node(workers[i]);
      nodes := nodes + [n];
    }
  }
}
