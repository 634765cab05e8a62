/** The two task stores behind the store interface.

    The in-memory store keeps and hands out pointers: a write through a pointer changes the stored task
    before any Put.  The persistent store keeps and hands out copies. */
module Stores {
  import opened Tasks

  /** A task on the heap: what a task pointer points to.  `key` is the id of the task it was made for. */
  class TaskCell {
    var v: Task
    ghost const key: Id

    constructor (ghost key: Id, t: Task)
      ensures v == t && this.key == key
    {
      v := t;
      this.key := key;
    }
  }

  datatype Backend =
    | Memory(cells: map<Id, TaskCell>)
    | Persistent(rows: map<Id, Task>)

  /** The in-memory store holds pointer `c` under `key`. */
  ghost predicate Holds(b: Backend, key: Id, c: TaskCell) {
    b.Memory? && key in b.cells && b.cells[key] == c
  }

  /** The contents are what the backend shows, `held` being what is in the variables. */
  ghost predicate Shown(b: Backend, held: map<TaskCell, Task>, contents: Db) {
    match b
    case Memory(cells) =>
      contents.Keys == cells.Keys && forall id :: id in cells ==> cells[id] in held && contents[id] == held[cells[id]]
    case Persistent(rows) => contents == rows
  }

  /** Every pointer is stored under its own key only. */
  ghost predicate Homed(b: Backend) {
    b.Memory? ==> forall id :: id in b.cells ==> b.cells[id].key == id
  }

  /** What a reader sees after `t` was assigned through pointer `c`: it, wherever the store holds `c`. */
  ghost function Reassigned(b: Backend, contents: Db, c: TaskCell, t: Task): (after: Db)
    ensures after.Keys == contents.Keys
    ensures forall id :: id in contents ==> after[id] == if Holds(b, id, c) then t else contents[id]
  {
    map id | id in contents :: if Holds(b, id, c) then t else contents[id]
  }

  /** The backend after a Put. */
  ghost function AfterPut(b: Backend, key: Id, c: TaskCell, t: Task): Backend {
    match b
    case Memory(cells) => Memory(cells[key := c])
    case Persistent(rows) => Persistent(rows[key := t])
  }

  lemma AssignmentShown(b: Backend, held: map<TaskCell, Task>, contents: Db, c: TaskCell, t: Task)
    requires Shown(b, held, contents)
    ensures Shown(b, if c in held then held[c := t] else held, Reassigned(b, contents, c, t))
  {
    if b.Persistent? {
      assert Reassigned(b, contents, c, t) == contents;
    }
  }

  lemma AssignmentAtHome(b: Backend, held: map<TaskCell, Task>, contents: Db, c: TaskCell, t: Task)
    requires Shown(b, held, contents) && Homed(b)
    ensures Reassigned(b, contents, c, t) == if Holds(b, c.key, c) then contents[c.key := t] else contents
    ensures Reassigned(b, contents, c, t)[c.key := t] == contents[c.key := t]
  {
  }

  lemma PutShown(b: Backend, held: map<TaskCell, Task>, contents: Db, key: Id, c: TaskCell, t: Task)
    requires Shown(b, held, contents) && (c in held ==> held[c] == t)
    ensures Shown(AfterPut(b, key, c, t), if b.Memory? then held[c := t] else held, contents[key := t])
    ensures Homed(b) && c.key == key ==> Homed(AfterPut(b, key, c, t))
  {
  }

  class Store {
    var backend: Backend
    ghost var contents: Db                 // the stored tasks, as a reader would see them now
    ghost var held: map<TaskCell, Task>    // what is in the cells that were ever put by reference
    ghost var Repr: set<TaskCell>          // these cells

    ghost predicate Valid()
      reads this, Repr
    {
      held.Keys == Repr && (forall c :: c in Repr ==> c.v == held[c]) && Shown(backend, held, contents)
    }

    ghost predicate Tidy()
      reads this, Repr
    {
      Valid() && Homed(backend)
    }

    /** `rows` is what the file of the persistent store holds; in memory there is nothing yet. */
    constructor (memory: bool, rows: Db)
      ensures Tidy() && Repr == {} && held == map[]
      ensures backend == (if memory then Memory(map[]) else Persistent(rows))
      ensures contents == if memory then map[] else rows
    {
      backend := if memory then Memory(map[]) else Persistent(rows);
      contents := if memory then map[] else rows;
      Repr, held := {}, map[];
    }

    method Put(key: Id, c: TaskCell)
      requires Valid()
      modifies this
      ensures Valid()
      ensures contents == old(contents)[key := c.v]
      ensures backend == AfterPut(old(backend), key, c, c.v) && backend.Memory? == old(backend.Memory?)
      ensures old(Homed(backend)) && c.key == key ==> Homed(backend)
      ensures held == if backend.Memory? then old(held)[c := c.v] else old(held)
      ensures Repr == if backend.Memory? then old(Repr) + {c} else old(Repr)
    {
      PutShown(backend, held, contents, key, c, c.v);
      contents := contents[key := c.v];
      match backend {
        case Memory(cells) =>
          backend, held, Repr := Memory(cells[key := c]), held[c := c.v], Repr + {c};
        case Persistent(rows) =>
          backend := Persistent(rows[key := c.v]);
      }
    }

    method Get(key: Id) returns (r: Option<TaskCell>)
      requires Valid()
      ensures r.Some? <==> key in contents
      ensures r.Some? ==> Found(r.value, key) && (backend.Memory? || fresh(r.value))
    {
      match backend {
        case Memory(cells) => r := if key in cells then Some(cells[key]) else None;
        case Persistent(rows) =>
          if key in rows {
            var c := new TaskCell(key, rows[key]);
            r := Some(c);
          } else {
            r := None;
          }
      }
    }

    /** An assignment through a task pointer: visible at once where the store holds the pointer, which is only
        so in the in-memory store. */
    method WriteThrough(c: TaskCell, t: Task)
      requires Valid()
      modifies c, `contents, `held
      ensures Valid() && c.v == t
      ensures held == if c in Repr then old(held)[c := t] else old(held)
      ensures contents == Reassigned(backend, old(contents), c, t)
    {
      AssignmentShown(backend, held, contents, c, t);
      contents := Reassigned(backend, contents, c, t);
      if c in Repr {
        held := held[c := t];
      }
      c.v := t;
    }

    /** Assigns through a pointer, then puts the pointer in the store.  `mid` is what a reader sees between the
        two: already the new task, or still the old contents. */
    method Save(key: Id, c: TaskCell, t: Task) returns (ghost mid: Db)
      requires Valid()
      modifies c, this
      ensures Valid() && c.v == t && backend.Memory? == old(backend.Memory?)
      ensures mid == Reassigned(old(backend), old(contents), c, t) && contents == mid[key := t]
      ensures Repr == if backend.Memory? then old(Repr) + {c} else old(Repr)
      ensures old(Homed(backend)) && c.key == key ==>
        && Homed(backend) && contents == old(contents)[key := t]
        && mid == if Holds(old(backend), key, c) then contents else old(contents)
    {
      if Homed(backend) {
        AssignmentAtHome(backend, held, contents, c, t);
      }
      WriteThrough(c, t);
      mid := contents;
      Put(key, c);
    }

    /** `c` is what a reader gets for `key`: the pointer that is stored, or a copy. */
    ghost predicate Found(c: TaskCell, key: Id)
      reads this, c
    {
      && key in contents && c.v == contents[key]
      && (if backend.Memory? then Holds(backend, key, c) && c in Repr else c.key == key)
    }

    /** All tasks, in the order `order` in which the backend enumerates its keys. */
    method List(order: seq<Id>) returns (cs: seq<TaskCell>)
      requires Valid() && forall i :: 0 <= i < |order| ==> order[i] in contents
      ensures |cs| == |order|
      ensures forall i :: 0 <= i < |cs| ==> Found(cs[i], order[i])
      ensures forall i :: 0 <= i < |cs| ==> backend.Memory? || fresh(cs[i])
    {
      cs := [];
      for i := 0 to |order|
        invariant |cs| == i
        invariant forall j :: 0 <= j < i ==> Found(cs[j], order[j])
        invariant forall j :: 0 <= j < i ==> backend.Memory? || fresh(cs[j])
      {
        var r := Get(order[i]);
        cs := cs + [r.value];
      }
    }
  }
}
