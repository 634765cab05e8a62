/** The manager's task store on the heap: what each key leads to, in memory and on disk. */
module TaskTable {
  import opened TaskState
  import opened Tasks
  import opened Stores
  import opened ManagerModel
  import opened ManagerOutcomes

  /** Where the keys of a listing lead. */
  function Listed(st: TaskStore, order: seq<Id>): seq<Id>
    requires forall id :: id in order ==> id in st.keys
  {
    seq(|order|, i requires 0 <= i < |order| => st.keys[order[i]])
  }

  /** What one check gives to the worker again. */
  function Again(t: Task): seq<Task> {
    if NeedsRestart(t) then [Restarted(t)] else []
  }

  /** The tasks that are restarted by the checks, as restarted. */
  function Resubmitted(shared: bool, st: TaskStore, names: seq<Id>): seq<Task>
    decreases |names|
  {
    if names == [] then []
    else (if names[0] in st.cells then Again(st.cells[names[0]]) else [])
         + Resubmitted(shared, Checked(shared, st, names[0]), names[1..])
  }

  lemma FirstAgain(shared: bool, st: TaskStore, names: seq<Id>, earlier: seq<Task>)
    requires names != [] && names[0] in st.cells
    ensures earlier + Resubmitted(shared, st, names) ==
      earlier + Again(st.cells[names[0]]) + Resubmitted(shared, Checked(shared, st, names[0]), names[1..])
  {
  }

  /** The store after the checks. */
  function AllChecked(shared: bool, st: TaskStore, names: seq<Id>): TaskStore
    decreases |names|
  {
    if names == [] then st else AllChecked(shared, Checked(shared, st, names[0]), names[1..])
  }

  lemma OneCheck(shared: bool, st: TaskStore, name: Id)
    requires Own(st) && name in st.cells
    ensures var t := st.cells[name];
      Checked(shared, st, name) == TaskStore(st.keys, st.cells[name := if NeedsRestart(t) then Restarted(t) else t])
    ensures Own(Checked(shared, st, name))
  {
    if NeedsRestart(st.cells[name]) {
      assert st.keys[name := name] == st.keys;
    } else {
      assert st.cells[name := st.cells[name]] == st.cells;
    }
  }

  /** The checks restart what needs it, each task on its own. */
  lemma {:induction false} ChecksAreApart(shared: bool, st: TaskStore, names: seq<Id>)
    requires Own(st) && NoRepeats(names) && forall n :: n in names ==> n in st.cells
    ensures AllChecked(shared, st, names).keys == st.keys
    ensures AllChecked(shared, st, names).cells ==
      map n | n in st.cells ::
        if n in names && NeedsRestart(st.cells[n]) then Restarted(st.cells[n]) else st.cells[n]
    decreases |names|
  {
    if names != [] {
      OneCheck(shared, st, names[0]);
      assert names[0] !in names[1..];
      ChecksAreApart(shared, Checked(shared, st, names[0]), names[1..]);
    }
  }

  /** The tasks at `names` that have to be restarted, as restarted. */
  function ToRestart(cells: map<Id, Task>, names: seq<Id>): seq<Task> {
    if names == [] then []
    else (if names[0] in cells && cells[names[0]].state == Failed && cells[names[0]].restartCount < 3
          then [cells[names[0]].(state := Scheduled, restartCount := cells[names[0]].restartCount + 1)] else [])
         + ToRestart(cells, names[1..])
  }

  lemma {:induction false} OthersToRestart(cells: map<Id, Task>, names: seq<Id>, name: Id, t: Task)
    requires name !in names
    ensures ToRestart(cells[name := t], names) == ToRestart(cells, names)
    decreases |names|
  {
    if names != [] {
      OthersToRestart(cells, names[1..], name, t);
    }
  }

  lemma {:induction false} ResubmittedAreToRestart(shared: bool, st: TaskStore, names: seq<Id>)
    requires Own(st) && NoRepeats(names) && forall n :: n in names ==> n in st.cells
    ensures Resubmitted(shared, st, names) == ToRestart(st.cells, names)
    decreases |names|
  {
    if names != [] {
      var t := st.cells[names[0]];
      OneCheck(shared, st, names[0]);
      assert names[0] !in names[1..];
      ResubmittedAreToRestart(shared, Checked(shared, st, names[0]), names[1..]);
      OthersToRestart(st.cells, names[1..], names[0], if NeedsRestart(t) then Restarted(t) else t);
    }
  }

  /** What a round of health checks leaves, if the tasks are stored under their own ids: the failed tasks that were
      restarted fewer than three times are restarted, once, and handed on in the order of the listing. */
  ghost predicate AfterChecks(st: TaskStore, order: seq<Id>, st': TaskStore, resubmitted: seq<Task>) {
    && st'.keys == st.keys && st'.cells.Keys == st.cells.Keys
    && (forall n :: n in st.cells ==>
          if n in order then IsChecked(st.cells[n], st'.cells[n]) else st'.cells[n] == st.cells[n])
    && resubmitted == ToRestart(st.cells, order)
  }

  lemma ChecksOutcome(shared: bool, st: TaskStore, order: seq<Id>)
    requires Own(st) && NoRepeats(order) && forall id :: id in order ==> id in st.keys
    ensures AfterChecks(st, order, AllChecked(shared, st, Listed(st, order)),
                        Resubmitted(shared, st, Listed(st, order)))
  {
    assert Listed(st, order) == order;
    ChecksAreApart(shared, st, order);
    ResubmittedAreToRestart(shared, st, order);
  }

  /** So the order in which a store lists its tasks does not matter: a round of checks leaves the two stores equal,
      whatever the orders of their listings. */
  lemma ChecksInAnyOrder(st: TaskStore, order: seq<Id>, otherOrder: seq<Id>)
    requires Own(st) && NoRepeats(order) && NoRepeats(otherOrder)
    requires forall id :: (id in order <==> id in st.keys) && (id in otherOrder <==> id in st.keys)
    ensures AllChecked(true, st, Listed(st, order)) == AllChecked(false, st, Listed(st, otherOrder))
  {
    assert Listed(st, order) == order && Listed(st, otherOrder) == otherOrder;
    ChecksAreApart(true, st, order);
    ChecksAreApart(false, st, otherOrder);
  }

  /** Each key leads to the variable made for that task. */
  ghost predicate Leads(cells: map<Id, TaskCell>, keys: map<Id, Id>) {
    keys.Keys == cells.Keys && forall k :: k in cells ==> keys[k] == cells[k].key
  }

  /** One variable was made per task. */
  ghost predicate Made(variables: set<TaskCell>, made: map<Id, TaskCell>) {
    forall c :: c in variables ==> c.key in made && made[c.key] == c
  }

  ghost predicate Shows(held: map<TaskCell, Task>, values: Db) {
    forall c :: c in held ==> c.key in values && held[c] == values[c.key]
  }

  /** `rows` says where the keys of the store lead and what is there. */
  ghost predicate Linked(
      memory: bool, b: Backend, held: map<TaskCell, Task>, rows: TaskStore, made: map<Id, TaskCell>)
  {
    if memory then b.Memory? && Leads(b.cells, rows.keys) && Made(held.Keys, made) && Shows(held, rows.cells)
    else b.Persistent? && rows.cells == b.rows && Own(rows)
  }

  lemma AddLinked(
      memory: bool, b: Backend, held: map<TaskCell, Task>, rows: TaskStore, made: map<Id, TaskCell>,
      c: TaskCell, t: Task)
    requires Linked(memory, b, held, rows, made) && c.key == t.id && (memory ==> t.id !in rows.cells)
    ensures Linked(memory, AfterPut(b, t.id, c, t), if memory then held[c := t] else held,
                   PutNew(rows, t), made[t.id := c])
  {
  }

  lemma AssignLinked(
      memory: bool, b: Backend, held: map<TaskCell, Task>, rows: TaskStore, made: map<Id, TaskCell>,
      c: TaskCell, t: Task)
    requires Linked(memory, b, held, rows, made) && memory && c in held
    ensures Linked(memory, b, held[c := t], rows.(cells := rows.cells[c.key := t]), made)
  {
  }

  function AfterFetched(memory: bool, rows: TaskStore, key: Id, name: Id, t: Task): TaskStore {
    if memory then rows.(keys := rows.keys[key := name]) else TaskStore(rows.keys[key := key], rows.cells[key := t])
  }

  lemma FetchedLinked(
      memory: bool, b: Backend, held: map<TaskCell, Task>, rows: TaskStore, made: map<Id, TaskCell>,
      c: TaskCell, t: Task)
    requires Linked(memory, b, held, rows, made) && (memory ==> c in held && held[c] == t)
    ensures Linked(memory, AfterPut(b, t.id, c, t), if memory then held[c := t] else held,
                   AfterFetched(memory, rows, t.id, c.key, t), made)
  {
  }

  class TaskTable {
    const db: Store
    const memory: bool
    ghost var rows: TaskStore
    ghost var made: map<Id, TaskCell>

    ghost predicate Valid()
      reads this, db, db.Repr
    {
      db.Valid() && Linked(memory, db.backend, db.held, rows, made)
    }

    constructor (memory: bool, found: Db)
      requires memory || forall id :: id in found ==> found[id].id == id
      ensures Valid() && this.memory == memory && fresh(db) && db.Repr == {}
      ensures rows == Opened(if memory then map[] else found)
    {
      this.memory := memory;
      db := new Store(memory, found);
      rows, made := Opened(if memory then map[] else found), map[];
    }

    /** Stores a new variable; the result is the pointer that the in-memory store holds from now on. */
    method Add(t: Task) returns (c: TaskCell)
      requires Valid() && (memory ==> t.id !in rows.cells)
      modifies this, db
      ensures Valid() && rows == PutNew(old(rows), t)
      ensures c.v == t && c.key == t.id && fresh(c) && (memory ==> c in db.Repr)
    {
      c := new TaskCell(t.id, t);
      AddLinked(memory, db.backend, db.held, rows, made, c, t);
      rows, made := PutNew(rows, t), made[t.id := c];
      db.Put(t.id, c);
    }

    /** An assignment through a task pointer. */
    method AssignThrough(c: TaskCell, t: Task)
      requires Valid() && (memory ==> c in db.Repr)
      modifies db`contents, db`held, c, `rows
      ensures Valid() && c.v == t
      ensures rows == if memory then old(rows).(cells := old(rows).cells[c.key := t]) else old(rows)
    {
      if memory {
        AssignLinked(memory, db.backend, db.held, rows, made, c, t);
        rows := rows.(cells := rows.cells[c.key := t]);
      }
      db.WriteThrough(c, t);
    }

    /** Put of a pointer that was fetched from the store. */
    method PutFetched(key: Id, c: TaskCell)
      requires Valid() && (memory ==> c in db.Repr) && c.v.id == key
      modifies db, `rows
      ensures Valid() && db.Repr == old(db.Repr)
      ensures rows == AfterFetched(memory, old(rows), key, c.key, c.v)
    {
      FetchedLinked(memory, db.backend, db.held, rows, made, c, c.v);
      rows := AfterFetched(memory, rows, key, c.key, c.v);
      db.Put(key, c);
    }

    /** Assignment and Put of a fetched pointer, under the id that the task carries. */
    method PutBackTask(c: TaskCell, t: Task)
      requires Valid() && (memory ==> c in db.Repr)
      modifies db, c, `rows
      ensures Valid() && db.Repr == old(db.Repr) && c.v == t
      ensures rows == PutBack(memory, old(rows), c.key, t)
    {
      AssignThrough(c, t);
      PutFetched(t.id, c);
    }

    /** The inner loop of updateTasks: the task is put back under the id it carries. */
    method Update(reported: Task)
      requires Valid()
      modifies db, db.Repr, `rows
      ensures Valid() && fresh(db.Repr - old(db.Repr))
      ensures (forall k :: k in old(rows).keys ==> old(rows).keys[k] in old(rows).cells)
      ensures rows == Updated(memory, old(rows), reported) && AfterReport(old(rows), reported, rows)
    {
      ReportOutcome(memory, rows, reported);
      var c := db.Get(reported.id);
      if c.Some? {
        PutBackTask(c.value, Refreshed(c.value.v, reported));
      }
    }

    /** The pointer is one that the in-memory store holds or held, or a copy that still shows its row. */
    ghost predicate Current(c: TaskCell)
      reads `rows, db, c
    {
      if memory then c in db.Repr else c.key in rows.cells && c.v == rows.cells[c.key]
    }

    method RestartTask(c: TaskCell)
      requires Valid() && Current(c)
      modifies c, db, `rows
      ensures Valid() && db.Repr == old(db.Repr) && c.v == Restarted(old(c.v))
      ensures rows == PutBack(memory, old(rows), c.key, c.v)
    {
      PutBackTask(c, c.v.(state := Scheduled, restartCount := c.v.restartCount + 1));
    }

    /** One round of the loop of doHealthChecks.  The pointers that come later stay current. */
    method CheckTask(c: TaskCell, ghost later: seq<TaskCell>) returns (again: seq<Task>)
      requires Valid() && Current(c)
      requires forall d :: d in later ==> Current(d) && (!memory ==> d.key != c.key)
      modifies c, db, `rows
      ensures Valid() && db.Repr == old(db.Repr)
      ensures rows == Checked(memory, old(rows), c.key) && AfterCheck(old(rows), c.key, rows)
      ensures again == Again(old(c.v)) && c.key in old(rows).cells && old(c.v) == old(rows).cells[c.key]
      ensures again == if Restartable(old(c.v)) then [rows.cells[c.key]] else []
      ensures forall d :: d in later ==> Current(d)
    {
      CheckOutcome(memory, rows, c.key);
      again := [];
      if c.v.state == Running && c.v.restartCount < MAX_RESTARTS {
        // checkTaskHealth asks the manager's own worker, but always answers nil: no restart.
      } else if c.v.state == Failed && c.v.restartCount < MAX_RESTARTS {
        RestartTask(c);
        again := [c.v];
      }
    }

    /** The loop of doHealthChecks.  The result are the tasks given to the manager's own worker again. */
    method CheckTasks(tasks: seq<TaskCell>, ghost names: seq<Id>) returns (resubmitted: seq<Task>)
      requires Valid() && |tasks| == |names| && (!memory ==> NoRepeats(names))
      requires forall i :: 0 <= i < |tasks| ==> tasks[i].key == names[i]
      requires forall c :: c in tasks ==> Current(c)
      modifies db, tasks, `rows
      ensures Valid()
      ensures rows == AllChecked(memory, old(rows), names)
      ensures resubmitted == Resubmitted(memory, old(rows), names)
    {
      resubmitted := [];
      assert names[0..] == names;
      for i := 0 to |tasks|
        invariant Valid()
        invariant forall c :: c in tasks[i..] ==> Current(c)
        invariant AllChecked(memory, rows, names[i..]) == AllChecked(memory, old(rows), names)
        invariant resubmitted + Resubmitted(memory, rows, names[i..]) == Resubmitted(memory, old(rows), names)
      {
        assert names[i..][1..] == names[i + 1..];
        assert tasks[i] in tasks[i..] && Current(tasks[i]) && names[i] in rows.cells;
        FirstAgain(memory, rows, names[i..], resubmitted);
        var again := CheckTask(tasks[i], tasks[i + 1..]);
        resubmitted := resubmitted + again;
      }
    }

    /** Checks what the store lists, `order` being the order in which it lists its keys. */
    method CheckListed(order: seq<Id>) returns (resubmitted: seq<Task>)
      requires Valid() && NoRepeats(order) && forall id :: id in order ==> id in rows.keys
      modifies db, db.Repr, `rows
      ensures Valid()
      ensures rows == AllChecked(memory, old(rows), Listed(old(rows), order))
      ensures resubmitted == Resubmitted(memory, old(rows), Listed(old(rows), order))
      ensures Own(old(rows)) ==> AfterChecks(old(rows), order, rows, resubmitted)
    {
      if Own(rows) {
        ChecksOutcome(memory, rows, order);
      }
      ghost var names := Listed(rows, order);
      var tasks := db.List(order);
      assert forall i :: 0 <= i < |tasks| ==> tasks[i].key == names[i] && Current(tasks[i]);
      resubmitted := CheckTasks(tasks, names);
    }
  }
}
