/** Safety of the worker over whole serial runs. */
module WorkerRuns {
  import opened TaskState
  import opened Tasks
  import opened WorkerSpec

  function States(ws: seq<Task>): seq<State> {
    seq(|ws|, i requires 0 <= i < |ws| => ws[i].state)
  }

  predicate QuietState(s: State) {
    s == Scheduled || s == Running || s == Completed || s == Failed
  }

  ghost predicate Quiescent(db: Db) {
    forall id :: id in db ==> db[id].id == id && QuietState(db[id].state)
  }

  predicate FinishMarksCompletion(t: Task) {
    t.finishTime.Some? <==> t.state == Completed
  }

  /** A listing shows exactly the stored keys. */
  ghost predicate Legal(db: Db, op: Op) {
    op.RegisterWorker? ==> forall id :: id in op.order <==> id in db
  }

  /** StartTask, StopTask and failTask are given the task as it is stored. */
  predicate Current(db: Db, op: Op) {
    op.StartTask? || op.StopTask? || op.FailTask? ==> op.t.id in db && op.t == db[op.t.id]
  }

  /** A task that can be created comes under an id that is already stored. */
  predicate CreatesAgain(db: Db, op: Op) {
    op.CreateContainer? && ValidStateTransition(op.t.state, Creating) && op.t.id in db
  }

  /** The state a task is in, followed by the states `ws` writes. */
  function Walk(db: Db, id: Id, ws: seq<Task>): seq<State> {
    (if id in db then [db[id].state] else []) + States(ws)
  }

  /** A write outside the table: updateTaskStatus stores a finished task again, in the same state. */
  predicate RewritesFinished(db: Db, op: Op) {
    op.UpdateTaskStatus? && op.id in db && Recognised(op.output) && Terminal(db[op.id].state)
  }

  // ---------------------------------------------------------------- one operation

  lemma OpShape(db: Db, op: Op)
    requires Quiescent(db) && Legal(db, op)
    ensures |Writes(db, op)| <= 3
    ensures Writes(db, op) != [] ==> Subject(db, op).Some?
    ensures forall w :: w in Writes(db, op) ==> w.id == Subject(db, op).value
  {
  }

  /** A walk that follows the table up to repetitions, never falls back, and comes to rest. */
  ghost predicate GoodWalk(p: seq<State>) {
    StutterPath(p) && RankMonotone(p) && p != [] && QuietState(p[|p| - 1])
  }

  lemma CreateWalks(t: Task, o: CreateOutcome)
    requires CreateWrites(t, o) != []
    ensures var p := States(CreateWrites(t, o)); GoodWalk(p) && TablePath(p) && p[0] == Creating
  {
    assert States(CreateWrites(t, o)) == if o.Created? then [Creating, Scheduled] else [Creating, Failed];
  }

  lemma FailWalks(t: Task, msg: Message)
    requires QuietState(t.state) && FailWrites(t, msg) != []
    ensures var p := [t.state] + States(FailWrites(t, msg)); GoodWalk(p) && TablePath(p)
  {
    assert [t.state] + States(FailWrites(t, msg)) == [t.state, Failed];
  }

  lemma StartWalks(t: Task, error: Option<string>)
    requires QuietState(t.state) && StartWrites(t, error) != []
    ensures var p := [t.state] + States(StartWrites(t, error)); GoodWalk(p) && TablePath(p)
  {
    if t.state != Running {
      assert [t.state] + States(StartWrites(t, error)) == [t.state, Failed];
    } else if error.Some? {
      assert [t.state] + States(StartWrites(t, error)) == [Running, Running, Failed];
    } else {
      assert [t.state] + States(StartWrites(t, error)) == [Running, Running];
    }
  }

  lemma HealthyWalks(t: Task, w: WorkerInstance, error: Option<string>)
    requires t.state == Scheduled && w.isHealthy
    ensures var p := [t.state] + States(RegisterWrites(Some(t), w, error)); GoodWalk(p) && TablePath(p)
  {
    if error.Some? {
      assert [t.state] + States(RegisterWrites(Some(t), w, error)) == [Scheduled, Starting, Running, Failed];
    } else {
      assert [t.state] + States(RegisterWrites(Some(t), w, error)) == [Scheduled, Starting, Running];
    }
  }

  lemma RegisterWalks(t: Task, w: WorkerInstance, error: Option<string>)
    requires QuietState(t.state) && RegisterWrites(Some(t), w, error) != []
    ensures var p := [t.state] + States(RegisterWrites(Some(t), w, error)); GoodWalk(p) && TablePath(p)
  {
    if w.isHealthy {
      HealthyWalks(t, w, error);
    } else {
      assert [t.state] + States(RegisterWrites(Some(t), w, error)) == [Scheduled, Failed];
    }
  }

  lemma StopWalks(t: Task, o: DeleteOutcome)
    requires QuietState(t.state) && StopWrites(t, o) != []
    ensures var p := [t.state] + States(StopWrites(t, o)); GoodWalk(p) && TablePath(p)
  {
    assert t.state == Running || t.state == Stopping;
    assert t.state == Running;
    var p := [t.state] + States(StopWrites(t, o));
    assert |p| == 3 && p[0] == Running && p[1] == Stopping && (p[2] == Completed || p[2] == Failed);
  }

  lemma UpdateWalks(t: Task, o: Output)
    requires QuietState(t.state) && UpdateWrites(t, o) != []
    ensures var p := [t.state] + States(UpdateWrites(t, o)); GoodWalk(p) && (TablePath(p) <==> !Terminal(t.state))
  {
    var p := [t.state] + States(UpdateWrites(t, o));
    assert p == [t.state, Updated(t, o).state];
    assert Terminal(t.state) ==> !ValidStateTransition(p[0], p[1]);
  }

  /** From a state of rest there is no way to Creating but back. */
  lemma CreationFallsBack(s: State, p: seq<State>)
    requires QuietState(s) && p != [] && p[0] == Creating
    ensures !StutterPath([s] + p) && !RankMonotone([s] + p) && !TablePath([s] + p)
  {
    assert ([s] + p)[0] == s && ([s] + p)[1] == Creating;
    assert !ValidStateTransition(s, Creating) && s != Creating && Rank(s) > Rank(Creating);
  }

  lemma CreateWalksOn(db: Db, t: Task, o: CreateOutcome)
    requires Quiescent(db) && CreateWrites(t, o) != []
    ensures var p := Walk(db, t.id, CreateWrites(t, o));
      if t.id in db then !StutterPath(p) && !RankMonotone(p) && !TablePath(p)
      else GoodWalk(p) && TablePath(p) && p[0] == Creating
  {
    CreateWalks(t, o);
    if t.id in db {
      CreationFallsBack(db[t.id].state, States(CreateWrites(t, o)));
    } else {
      assert Walk(db, t.id, CreateWrites(t, o)) == States(CreateWrites(t, o));
    }
  }

  /** What one operation writes to one task, if it is given the stored task: a good walk from the stored state, or
      from Creating for a new id, and a walk of the table itself except when a finished task is stored again;
      but if a task is created under a stored id, it leaves the table and falls back. */
  lemma OpWalks(db: Db, op: Op)
    requires Quiescent(db) && Legal(db, op) && Current(db, op) && Writes(db, op) != []
    ensures Subject(db, op).Some?
    ensures var p := Walk(db, Subject(db, op).value, Writes(db, op));
      if CreatesAgain(db, op) then !StutterPath(p) && !RankMonotone(p) && !TablePath(p)
      else && GoodWalk(p) && (TablePath(p) <==> !RewritesFinished(db, op))
           && (Subject(db, op).value !in db ==> p[0] == Creating)
  {
    match op {
      case CreateContainer(t, o) => CreateWalksOn(db, t, o);
      case RegisterWorker(w, order, error) => RegisterWalks(FirstMatch(db, order, w.id).value, w, error);
      case StartTask(t, error) => StartWalks(t, error);
      case StopTask(t, o) => StopWalks(t, o);
      case UpdateTaskStatus(id, o) => UpdateWalks(db[id], o);
      case FailTask(t, msg) => FailWalks(t, Reported(msg));
    }
  }

  /** Whatever task an operation is given, it comes to rest. */
  lemma LastIsQuiet(db: Db, op: Op)
    requires Quiescent(db) && Legal(db, op) && Writes(db, op) != []
    ensures var ws := Writes(db, op); QuietState(ws[|ws| - 1].state)
  {
  }

  /** Only the subject changes, and the last write to it stays. */
  lemma OpEffect(db: Db, op: Op)
    requires Quiescent(db) && Legal(db, op)
    ensures var ws := Writes(db, op);
      && Puts(db, ws) == (if ws == [] then db else db[Subject(db, op).value := ws[|ws| - 1]])
      && Quiescent(Puts(db, ws))
  {
    OpShape(db, op);
    var ws := Writes(db, op);
    if ws != [] {
      LastIsQuiet(db, op);
      PutsToOneId(db, ws, Subject(db, op).value);
      assert ws[|ws| - 1].id == Subject(db, op).value;
    }
  }

  /** What the writes of each operation amount to. */
  lemma CreateEffect(db: Db, t: Task, o: CreateOutcome)
    requires Quiescent(db)
    ensures Puts(db, Writes(db, CreateContainer(t, o))) ==
      if ValidStateTransition(t.state, Creating) then db[t.id := CreateResult(AsCreating(t), o)] else db
  {
    OpEffect(db, CreateContainer(t, o));
  }

  lemma RegisterEffect(db: Db, w: WorkerInstance, order: seq<Id>, error: Option<string>)
    requires Quiescent(db) && Legal(db, RegisterWorker(w, order, error))
    ensures var m := FirstMatch(db, order, w.id);
      Puts(db, Writes(db, RegisterWorker(w, order, error))) ==
      if m.Some? && m.value.state == Scheduled then db[m.value.id := RegisterResult(m.value, w, error)] else db
  {
    OpEffect(db, RegisterWorker(w, order, error));
  }

  lemma StartEffect(db: Db, t: Task, error: Option<string>)
    requires Quiescent(db)
    ensures Puts(db, Writes(db, StartTask(t, error))) ==
      if ValidStateTransition(t.state, Running) then db[t.id := StartResult(t, error)]
      else if ValidStateTransition(t.state, Failed) then db[t.id := AsFailed(t, NoTransition(t.state, Running))]
      else db
  {
    OpEffect(db, StartTask(t, error));
  }

  lemma StopEffect(db: Db, t: Task, o: DeleteOutcome)
    requires Quiescent(db)
    ensures Puts(db, Writes(db, StopTask(t, o))) ==
      if ValidStateTransition(t.state, Stopping) then db[t.id := StopResult(AsStopping(t), o)] else db
  {
    OpEffect(db, StopTask(t, o));
  }

  lemma UpdateEffect(db: Db, id: Id, o: Output)
    requires Quiescent(db) && id in db
    ensures Puts(db, Writes(db, UpdateTaskStatus(id, o))) == db[id := Updated(db[id], o)]
  {
    OpEffect(db, UpdateTaskStatus(id, o));
  }

  // ---------------------------------------------------------------- whole runs

  ghost predicate LegalRun(db: Db, ops: seq<Op>)
    decreases |ops|
  {
    ops == [] || (Legal(db, ops[0]) && LegalRun(Puts(db, Writes(db, ops[0])), ops[1..]))
  }

  /** The store at the end of a run. */
  function RunDb(db: Db, ops: seq<Op>): Db
    decreases |ops|
  {
    if ops == [] then db else RunDb(Puts(db, Writes(db, ops[0])), ops[1..])
  }

  /** Every write of a run, oldest first. */
  function RunLog(db: Db, ops: seq<Op>): seq<Task>
    decreases |ops|
  {
    if ops == [] then [] else Writes(db, ops[0]) + RunLog(Puts(db, Writes(db, ops[0])), ops[1..])
  }

  /** The states a log writes for one id. */
  function StatesFor(log: seq<Task>, id: Id): seq<State> {
    if log == [] then [] else (if log[0].id == id then [log[0].state] else []) + StatesFor(log[1..], id)
  }

  lemma {:induction false} StatesForConcat(us: seq<Task>, ws: seq<Task>, id: Id)
    ensures StatesFor(us + ws, id) == StatesFor(us, id) + StatesFor(ws, id)
    decreases |us|
  {
    if us == [] {
      assert us + ws == ws;
    } else {
      assert (us + ws)[1..] == us[1..] + ws && (us + ws)[0] == us[0];
      StatesForConcat(us[1..], ws, id);
      Associates(if us[0].id == id then [us[0].state] else [], StatesFor(us[1..], id), StatesFor(ws, id));
    }
  }

  lemma {:induction false} StatesForSubject(ws: seq<Task>, subject: Id, id: Id)
    requires forall w :: w in ws ==> w.id == subject
    ensures StatesFor(ws, id) == if id == subject then States(ws) else []
    decreases |ws|
  {
    if ws != [] {
      StatesForSubject(ws[1..], subject, id);
      assert States(ws) == [ws[0].state] + States(ws[1..]);
    }
  }

  ghost function Before(db: Db, id: Id): seq<State> {
    if id in db then [db[id].state] else []
  }

  /** The states lead to what is stored for `id`. */
  ghost predicate EndsAt(p: seq<State>, db: Db, id: Id) {
    (id in db <==> p != []) && (p != [] ==> p[|p| - 1] == db[id].state)
  }

  lemma OpEndsAtStored(db: Db, op: Op, id: Id)
    requires Quiescent(db) && Legal(db, op)
    ensures EndsAt(Before(db, id) + StatesFor(Writes(db, op), id), Puts(db, Writes(db, op)), id)
  {
    OpShape(db, op);
    OpEffect(db, op);
    var ws := Writes(db, op);
    if ws != [] {
      StatesForSubject(ws, Subject(db, op).value, id);
    }
  }

  lemma EndsOn(db: Db, mid: Db, end: Db, id: Id, first: seq<State>, second: seq<State>)
    requires EndsAt(Before(db, id) + first, mid, id) && EndsAt(Before(mid, id) + second, end, id)
    ensures EndsAt(Before(db, id) + (first + second), end, id)
  {
    var p := Before(db, id) + first;
    assert Before(db, id) + (first + second) == p + second;
    assert second != [] ==> (Before(mid, id) + second)[|Before(mid, id) + second| - 1] == second[|second| - 1];
  }

  /** Over every serial run the last state written for an id is the stored one, and it is a quiet one. */
  lemma {:induction false} RunEndsAtStored(db: Db, ops: seq<Op>, id: Id)
    requires Quiescent(db) && LegalRun(db, ops)
    ensures Quiescent(RunDb(db, ops)) && EndsAt(Before(db, id) + StatesFor(RunLog(db, ops), id), RunDb(db, ops), id)
    decreases |ops|
  {
    if ops != [] {
      var ws := Writes(db, ops[0]);
      var mid := Puts(db, ws);
      var rest := RunLog(mid, ops[1..]);
      OpEffect(db, ops[0]);
      OpEndsAtStored(db, ops[0], id);
      RunEndsAtStored(mid, ops[1..], id);
      StatesForConcat(ws, rest, id);
      EndsOn(db, mid, RunDb(mid, ops[1..]), id, StatesFor(ws, id), StatesFor(rest, id));
    }
  }

  // ---------------------------------------------------------------- paths

  ghost predicate CurrentRun(db: Db, ops: seq<Op>)
    decreases |ops|
  {
    ops == [] || (Current(db, ops[0]) && CurrentRun(Puts(db, Writes(db, ops[0])), ops[1..]))
  }

  /** Somewhere along the run a task that can be created comes under the id `id`, which is already stored. */
  ghost predicate CreatedAgain(db: Db, ops: seq<Op>, id: Id)
    decreases |ops|
  {
    ops != [] &&
    ((CreatesAgain(db, ops[0]) && ops[0].t.id == id) || CreatedAgain(Puts(db, Writes(db, ops[0])), ops[1..], id))
  }

  /** Somewhere along the run updateTaskStatus stores task `id` again after its end. */
  ghost predicate RewritesAlong(db: Db, ops: seq<Op>, id: Id)
    decreases |ops|
  {
    ops != [] &&
    ((RewritesFinished(db, ops[0]) && ops[0].id == id) || RewritesAlong(Puts(db, Writes(db, ops[0])), ops[1..], id))
  }

  /** Every two neighbours are related. */
  ghost predicate Linked(r: (State, State) -> bool, p: seq<State>) {
    forall i :: 0 < i < |p| ==> r(p[i - 1], p[i])
  }

  predicate Stays(s: State, t: State) {
    s == t || ValidStateTransition(s, t)
  }

  predicate Rises(s: State, t: State) {
    Rank(s) <= Rank(t)
  }

  lemma PathsAreLinked(p: seq<State>)
    ensures TablePath(p) <==> Linked(ValidStateTransition, p)
    ensures StutterPath(p) <==> Linked(Stays, p)
    ensures RankMonotone(p) <==> Linked(Rises, p)
  {
  }

  lemma JoinLinked(r: (State, State) -> bool, p: seq<State>, q: seq<State>)
    requires p != []
    ensures Linked(r, p + q) <==> Linked(r, p) && Linked(r, [p[|p| - 1]] + q)
  {
    var whole, tail, last := p + q, [p[|p| - 1]] + q, |p| - 1;
    assert forall i :: 0 <= i < |p| ==> whole[i] == p[i];
    assert forall i :: 0 <= i < |tail| ==> tail[i] == whole[last + i];
    if Linked(r, p) && Linked(r, tail) {
      forall i | 0 < i < |whole| ensures r(whole[i - 1], whole[i]) {
        assert i > last ==> whole[i] == tail[i - last] && whole[i - 1] == tail[i - last - 1];
      }
    }
    if Linked(r, whole) {
      forall i | 0 < i < |tail| ensures r(tail[i - 1], tail[i]) {
        assert whole[last + i] == tail[i] && whole[last + i - 1] == tail[i - 1];
      }
    }
  }

  /** Two stretches of a run, one after the other. */
  lemma LinkedOn(r: (State, State) -> bool, db: Db, mid: Db, id: Id, first: seq<State>, second: seq<State>)
    requires EndsAt(Before(db, id) + first, mid, id)
    ensures Linked(r, Before(db, id) + (first + second)) <==>
      Linked(r, Before(db, id) + first) && Linked(r, Before(mid, id) + second)
  {
    var p := Before(db, id) + first;
    assert Before(db, id) + (first + second) == p + second;
    if p != [] {
      JoinLinked(r, p, second);
    } else {
      assert p + second == Before(mid, id) + second;
    }
  }

  /** What the states of one id look like: the first one of a new id is Creating; they follow the table up to
      repetitions, and never fall back, unless the task is created again; and they follow the table itself unless
      it is stored again after its end besides. */
  ghost predicate Traced(p: seq<State>, known: bool, again: bool, rewritten: bool) {
    && Starts(p, known)
    && (Linked(Stays, p) <==> !again)
    && (Linked(Rises, p) <==> !again)
    && (Linked(ValidStateTransition, p) <==> !again && !rewritten)
  }

  lemma UntouchedIsTraced(db: Db, id: Id)
    ensures Traced(Before(db, id), id in db, false, false)
  {
  }

  lemma NothingWritten(db: Db, op: Op, id: Id)
    requires Writes(db, op) == []
    ensures !CreatesAgain(db, op) && !RewritesFinished(db, op)
    ensures Traced(Before(db, id) + StatesFor(Writes(db, op), id), id in db, false, false)
  {
    UntouchedIsTraced(db, id);
    assert Before(db, id) + StatesFor(Writes(db, op), id) == Before(db, id);
  }

  lemma OpTracesSubject(db: Db, op: Op)
    requires Quiescent(db) && Legal(db, op) && Current(db, op) && Writes(db, op) != []
    ensures var id := Subject(db, op).value;
      Traced(Walk(db, id, Writes(db, op)), id in db, CreatesAgain(db, op), RewritesFinished(db, op))
  {
    OpWalks(db, op);
    PathsAreLinked(Walk(db, Subject(db, op).value, Writes(db, op)));
  }

  lemma OpTraces(db: Db, op: Op, id: Id)
    requires Quiescent(db) && Legal(db, op) && Current(db, op)
    ensures Traced(Before(db, id) + StatesFor(Writes(db, op), id), id in db,
                   CreatesAgain(db, op) && op.t.id == id, RewritesFinished(db, op) && op.id == id)
  {
    var ws := Writes(db, op);
    if ws == [] {
      NothingWritten(db, op, id);
    } else {
      OpShape(db, op);
      StatesForSubject(ws, Subject(db, op).value, id);
      if id == Subject(db, op).value {
        OpTracesSubject(db, op);
      } else {
        UntouchedIsTraced(db, id);
        assert Before(db, id) + StatesFor(ws, id) == Before(db, id);
      }
    }
  }

  /** A walk that does not go on from a stored state starts at Creating. */
  predicate Starts(p: seq<State>, known: bool) {
    !known && p != [] ==> p[0] == Creating
  }

  lemma StartsOn(db: Db, mid: Db, id: Id, first: seq<State>, second: seq<State>)
    requires EndsAt(Before(db, id) + first, mid, id)
    ensures Starts(Before(db, id) + (first + second), id in db) <==>
      Starts(Before(db, id) + first, id in db) && Starts(Before(mid, id) + second, id in mid)
  {
    var p := Before(db, id) + first;
    assert Before(db, id) + (first + second) == p + second;
    if p == [] {
      assert p + second == Before(mid, id) + second;
    } else {
      assert (p + second)[0] == p[0];
    }
  }

  /** Two stretches of a run, one after the other. */
  lemma TracedOn(
      db: Db, mid: Db, id: Id, first: seq<State>, second: seq<State>,
      again: bool, laterAgain: bool, rewritten: bool, laterRewritten: bool)
    requires EndsAt(Before(db, id) + first, mid, id)
    requires Traced(Before(db, id) + first, id in db, again, rewritten)
    requires Traced(Before(mid, id) + second, id in mid, laterAgain, laterRewritten)
    ensures Traced(Before(db, id) + (first + second), id in db, again || laterAgain, rewritten || laterRewritten)
  {
    LinkedOn(Stays, db, mid, id, first, second);
    LinkedOn(Rises, db, mid, id, first, second);
    LinkedOn(ValidStateTransition, db, mid, id, first, second);
    StartsOn(db, mid, id, first, second);
  }

  lemma {:induction false} RunTraces(db: Db, ops: seq<Op>, id: Id)
    requires Quiescent(db) && LegalRun(db, ops) && CurrentRun(db, ops)
    ensures Traced(Before(db, id) + StatesFor(RunLog(db, ops), id), id in db,
                   CreatedAgain(db, ops, id), RewritesAlong(db, ops, id))
    decreases |ops|
  {
    if ops == [] {
      assert Before(db, id) + StatesFor(RunLog(db, ops), id) == Before(db, id);
    } else {
      var op, ws := ops[0], Writes(db, ops[0]);
      var mid := Puts(db, ws);
      var rest := RunLog(mid, ops[1..]);
      OpEffect(db, op);
      OpEndsAtStored(db, op, id);
      OpTraces(db, op, id);
      RunTraces(mid, ops[1..], id);
      StatesForConcat(ws, rest, id);
      TracedOn(db, mid, id, StatesFor(ws, id), StatesFor(rest, id),
               CreatesAgain(db, op) && op.t.id == id, CreatedAgain(mid, ops[1..], id),
               RewritesFinished(db, op) && op.id == id, RewritesAlong(mid, ops[1..], id));
    }
  }

  /** The walk never leaves Completed, and is Running only after Scheduled and then Starting. */
  ghost predicate LifecycleOrder(p: seq<State>) {
    && (forall i, j :: 0 <= i <= j < |p| && p[i] == Completed ==> p[j] == Completed)
    && (forall k :: 0 <= k < |p| && p[k] == Running ==>
          exists i, j :: 0 <= i < j < k && p[i] == Scheduled && p[j] == Starting)
  }

  lemma WalksKeepLifecycleOrder(p: seq<State>)
    requires p != [] && p[0] == Creating && StutterPath(p)
    ensures LifecycleOrder(p)
  {
    forall i, j | 0 <= i <= j < |p| && p[i] == Completed ensures p[j] == Completed {
      CompletedIsFinal(p, i, j);
    }
    forall k | 0 <= k < |p| && p[k] == Running
      ensures exists i, j :: 0 <= i < j < k && p[i] == Scheduled && p[j] == Starting
    {
      RunningOnlyAfterStarting(p, k);
    }
  }

  lemma NothingBefore(db: Db, id: Id, p: seq<State>)
    requires id !in db
    ensures Before(db, id) + p == p
  {
  }

  lemma {:induction false} NewTaskEndsAtStored(db: Db, ops: seq<Op>, id: Id)
    requires Quiescent(db) && LegalRun(db, ops) && id !in db
    ensures EndsAt(StatesFor(RunLog(db, ops), id), RunDb(db, ops), id) && Quiescent(RunDb(db, ops))
  {
    NothingBefore(db, id, StatesFor(RunLog(db, ops), id));
    RunEndsAtStored(db, ops, id);
  }

  lemma {:induction false} NewTaskIsTraced(db: Db, ops: seq<Op>, id: Id)
    requires Quiescent(db) && LegalRun(db, ops) && CurrentRun(db, ops) && id !in db
    ensures Traced(StatesFor(RunLog(db, ops), id), false, CreatedAgain(db, ops, id), RewritesAlong(db, ops, id))
  {
    NothingBefore(db, id, StatesFor(RunLog(db, ops), id));
    RunTraces(db, ops, id);
  }

  lemma TracedLifecycle(p: seq<State>, again: bool, rewritten: bool)
    requires Traced(p, false, again, rewritten)
    ensures p != [] ==> p[0] == Creating
    ensures (StutterPath(p) <==> !again) && (RankMonotone(p) <==> !again)
    ensures !again ==> LifecycleOrder(p)
  {
    PathsAreLinked(p);
    if !again && p != [] {
      WalksKeepLifecycleOrder(p);
    }
  }

  /** In every serial run from an empty store in which StartTask, StopTask and failTask get the stored task: the
      states written for an id start at Creating, and end with the stored one, which is a quiet one.  They follow
      the table up to repetitions, and never fall back in rank, exactly if no task that can be created comes under
      the id again; and then they never leave Completed, and reach Running only after Scheduled and then
      Starting. */
  lemma {:induction false} LifecycleSafety(ops: seq<Op>, id: Id)
    requires LegalRun(map[], ops) && CurrentRun(map[], ops)
    ensures var p := StatesFor(RunLog(map[], ops), id);
      && (id in RunDb(map[], ops) <==> p != [])
      && (p != [] ==>
            && p[0] == Creating && p[|p| - 1] == RunDb(map[], ops)[id].state && QuietState(p[|p| - 1]))
      && (StutterPath(p) <==> !CreatedAgain(map[], ops, id))
      && (RankMonotone(p) <==> !CreatedAgain(map[], ops, id))
      && (!CreatedAgain(map[], ops, id) ==> LifecycleOrder(p))
  {
    NewTaskEndsAtStored(map[], ops, id);
    NewTaskIsTraced(map[], ops, id);
    TracedLifecycle(StatesFor(RunLog(map[], ops), id), CreatedAgain(map[], ops, id), RewritesAlong(map[], ops, id));
  }

  /** These states follow the table without repetitions exactly if, besides, no output with a recognised state is
      processed for the id after the end of its task. */
  lemma FollowsTableExactlyWhen(ops: seq<Op>, id: Id)
    requires LegalRun(map[], ops) && CurrentRun(map[], ops)
    ensures TablePath(StatesFor(RunLog(map[], ops), id)) <==>
      !CreatedAgain(map[], ops, id) && !RewritesAlong(map[], ops, id)
  {
    NewTaskIsTraced(map[], ops, id);
    PathsAreLinked(StatesFor(RunLog(map[], ops), id));
  }

  /** It does happen: a second task under the same id is created like the first, and falls back. */
  lemma SecondCreationFallsBack(t: Task, u: Task, o: CreateOutcome, again: CreateOutcome)
    requires t.id == u.id && ValidStateTransition(t.state, Creating) && ValidStateTransition(u.state, Creating)
    ensures var ops := [CreateContainer(t, o), CreateContainer(u, again)];
      && LegalRun(map[], ops) && CurrentRun(map[], ops)
      && RunDb(map[], ops) == map[u.id := CreateResult(AsCreating(u), again)]
      && !RankMonotone(StatesFor(RunLog(map[], ops), t.id))
  {
    var ops := [CreateContainer(t, o), CreateContainer(u, again)];
    CreateEffect(map[], t, o);
    var mid: Db := map[t.id := CreateResult(AsCreating(t), o)];
    CreateEffect(mid, u, again);
    assert Puts(map[], Writes(map[], ops[0])) == mid && CreatesAgain(mid, ops[1]);
    assert ops[1..] == [ops[1]] && [ops[1]][1..] == [];
    assert RunDb(mid, [ops[1]]) == mid[u.id := CreateResult(AsCreating(u), again)];
    LifecycleSafety(ops, t.id);
  }

  // ---------------------------------------------------------------- what callers hand in

  /** A caller hands in a task with this id. */
  predicate HandsIn(op: Op, id: Id) {
    !op.RegisterWorker? && !op.UpdateTaskStatus? && op.t.id == id
  }

  /** The state to which an operation first takes the task that it is given. */
  function FirstMove(op: Op): Option<State>
    requires !op.RegisterWorker? && !op.UpdateTaskStatus?
  {
    var s := op.t.state;
    match op
    case CreateContainer(_, _) => if ValidStateTransition(s, Creating) then Some(Creating) else None
    case StartTask(_, _) =>
      if ValidStateTransition(s, Running) then Some(Running)
      else if ValidStateTransition(s, Failed) then Some(Failed)
      else None
    case StopTask(_, _) => if ValidStateTransition(s, Stopping) then Some(Stopping) else None
    case FailTask(_, _) => if ValidStateTransition(s, Failed) then Some(Failed) else None
  }

  /** Its first move could be made from the stored task as well; a task is created only if it is not stored. */
  predicate InOrder(db: Db, op: Op) {
    !op.RegisterWorker? && !op.UpdateTaskStatus? && FirstMove(op).Some? ==>
      if op.CreateContainer? then op.t.id !in db else op.t.id in db && Stays(db[op.t.id].state, FirstMove(op).value)
  }

  /** So it is with every operation on `id` along the run. */
  ghost predicate OrderKept(db: Db, ops: seq<Op>, id: Id)
    decreases |ops|
  {
    ops == [] ||
    ((HandsIn(ops[0], id) ==> InOrder(db, ops[0])) && OrderKept(Puts(db, Writes(db, ops[0])), ops[1..], id))
  }

  /** The walk starts at Creating, unless it goes on from a stored state, and follows the table up to repetitions. */
  ghost predicate Proper(p: seq<State>, known: bool) {
    Linked(Stays, p) && Starts(p, known)
  }

  lemma FirstMoveIsWritten(db: Db, op: Op)
    requires !op.RegisterWorker? && !op.UpdateTaskStatus?
    ensures var p := States(Writes(db, op));
      && (p == [] <==> FirstMove(op).None?)
      && (p != [] ==> p[0] == FirstMove(op).value && Linked(Stays, p))
  {
  }

  lemma GoesOnFrom(s: State, p: seq<State>)
    requires p != [] && Linked(Stays, p)
    ensures Linked(Stays, [s] + p) <==> Stays(s, p[0])
  {
    var q := [s] + p;
    assert q[0] == s && q[1] == p[0];
    if Stays(s, p[0]) {
      forall i | 0 < i < |q| ensures Stays(q[i - 1], q[i]) {
        assert i > 1 ==> q[i] == p[i - 1] && q[i - 1] == p[i - 2];
      }
    }
  }

  lemma HandedInIsProper(db: Db, op: Op)
    requires !op.RegisterWorker? && !op.UpdateTaskStatus?
    requires op.t.id in db ==> QuietState(db[op.t.id].state)
    ensures Proper(Before(db, op.t.id) + States(Writes(db, op)), op.t.id in db) <==> InOrder(db, op)
  {
    FirstMoveIsWritten(db, op);
    var p := States(Writes(db, op));
    if op.t.id !in db {
      assert Before(db, op.t.id) + p == p;
    } else if p != [] {
      GoesOnFrom(db[op.t.id].state, p);
    }
  }

  lemma OpIsProper(db: Db, op: Op, id: Id)
    requires Quiescent(db) && Legal(db, op)
    ensures Proper(Before(db, id) + StatesFor(Writes(db, op), id), id in db) <==>
      (HandsIn(op, id) ==> InOrder(db, op))
  {
    if op.RegisterWorker? || op.UpdateTaskStatus? {
      OpTraces(db, op, id);
    } else {
      OpShape(db, op);
      StatesForSubject(Writes(db, op), op.t.id, id);
      HandedInIsProper(db, op);
    }
  }

  lemma ProperOn(db: Db, mid: Db, id: Id, first: seq<State>, second: seq<State>)
    requires EndsAt(Before(db, id) + first, mid, id)
    ensures Proper(Before(db, id) + (first + second), id in db) <==>
      Proper(Before(db, id) + first, id in db) && Proper(Before(mid, id) + second, id in mid)
  {
    LinkedOn(Stays, db, mid, id, first, second);
    StartsOn(db, mid, id, first, second);
  }

  lemma {:induction false} RunIsProper(db: Db, ops: seq<Op>, id: Id)
    requires Quiescent(db) && LegalRun(db, ops)
    ensures Proper(Before(db, id) + StatesFor(RunLog(db, ops), id), id in db) <==> OrderKept(db, ops, id)
    decreases |ops|
  {
    if ops == [] {
      assert Before(db, id) + StatesFor(RunLog(db, ops), id) == Before(db, id);
    } else {
      var ws := Writes(db, ops[0]);
      var mid := Puts(db, ws);
      var rest := RunLog(mid, ops[1..]);
      OpEffect(db, ops[0]);
      OpEndsAtStored(db, ops[0], id);
      OpIsProper(db, ops[0], id);
      RunIsProper(mid, ops[1..], id);
      StatesForConcat(ws, rest, id);
      ProperOn(db, mid, id, StatesFor(ws, id), StatesFor(rest, id));
    }
  }

  /** Over every serial run from an empty store, whatever tasks callers hand in: the states written for an id start
      at Creating and follow the table up to repetitions exactly if every operation on it makes a first move that it
      could make from the stored task as well. */
  lemma StartsAndFollowsExactlyWhen(ops: seq<Op>, id: Id)
    requires LegalRun(map[], ops)
    ensures var p := StatesFor(RunLog(map[], ops), id);
      (StutterPath(p) && (p != [] ==> p[0] == Creating) <==> OrderKept(map[], ops, id))
      && (OrderKept(map[], ops, id) ==> LifecycleOrder(p))
  {
    var p := StatesFor(RunLog(map[], ops), id);
    NothingBefore(map[], id, p);
    RunIsProper(map[], ops, id);
    PathsAreLinked(p);
    if OrderKept(map[], ops, id) && p != [] {
      WalksKeepLifecycleOrder(p);
    }
  }

  // ---------------------------------------------------------------- registration

  /** No task listed before `id` is in the container. */
  predicate ListedFirst(db: Db, order: seq<Id>, id: Id, containerId: string) {
    order != [] &&
    (order[0] == id ||
     ((order[0] in db ==> db[order[0]].containerId != containerId) && ListedFirst(db, order[1..], id, containerId)))
  }

  lemma {:induction false} MatchIsListedFirst(db: Db, order: seq<Id>, t: Task)
    requires Quiescent(db) && t.id !in db
    ensures var m := FirstMatch(db[t.id := t], order, t.containerId);
      (m.Some? && m.value.id == t.id <==> ListedFirst(db, order, t.id, t.containerId))
      && (m.Some? && m.value.id == t.id ==> m.value == t)
    decreases |order|
  {
    if order != [] {
      MatchIsListedFirst(db, order[1..], t);
    }
  }

  /** The worker that registers from the container of a task finds that task exactly when no other task with the
      same container id is listed before it.  The task then runs, or fails if the worker is unhealthy or does
      not get the command, and nothing else changes; otherwise the task stays Scheduled. */
  lemma RegistrationFindsItsTaskExactlyWhen(
      db: Db, t: Task, network: seq<string>, w: WorkerInstance, order: seq<Id>, error: Option<string>)
    requires Quiescent(db) && t.id !in db && ValidStateTransition(t.state, Creating)
    requires forall id :: id in order <==> id in db || id == t.id
    ensures var db' := RunDb(db, [CreateContainer(t, Created(network, w.id)), RegisterWorker(w, order, error)]);
      && t.id in db' && db'[t.id].containerId == w.id && db'[t.id].network == network
      && if ListedFirst(db, order, t.id, w.id)
         then && db' == db[t.id := db'[t.id]]
              && db'[t.id].state == (if w.isHealthy && error.None? then Running else Failed)
         else db'[t.id].state == Scheduled
  {
    var create, register := CreateContainer(t, Created(network, w.id)), RegisterWorker(w, order, error);
    var mid := Puts(db, Writes(db, create));
    OpEffect(db, create);
    assert mid[t.id].state == Scheduled && mid[t.id].containerId == w.id && mid[t.id].network == network;
    MatchIsListedFirst(db, order, mid[t.id]);
    var db' := Puts(mid, Writes(mid, register));
    OpEffect(mid, register);
    assert FirstMatch(mid, order, w.id).Some?;
    if ListedFirst(db, order, t.id, w.id) {
      assert db' == mid[t.id := RegisterResult(mid[t.id], w, error)];
    } else {
      assert db'[t.id] == mid[t.id];
    }
    assert [create, register][1..] == [register];
    assert RunDb(mid, [register]) == db' by {
      assert [register][1..] == [];
    }
  }

  // ---------------------------------------------------------------- finish times

  lemma OpKeepsFinishMark(db: Db, op: Op, id: Id)
    requires Quiescent(db) && Legal(db, op)
    requires id in db ==> FinishMarksCompletion(db[id])
    requires HandsIn(op, id) ==> FinishMarksCompletion(op.t)
    ensures var db' := Puts(db, Writes(db, op)); id in db' ==> FinishMarksCompletion(db'[id])
  {
    match op {
      case CreateContainer(t, o) => CreateEffect(db, t, o);
      case RegisterWorker(w, order, error) => RegisterEffect(db, w, order, error);
      case StartTask(t, error) => StartEffect(db, t, error);
      case StopTask(t, o) => StopEffect(db, t, o);
      case UpdateTaskStatus(_, o) =>
        if op.id in db {
          UpdateEffect(db, op.id, o);
        }
      case FailTask(_, _) => OpEffect(db, op);
    }
  }

  /** If the tasks that are handed in have a finish time exactly when they are Completed, then so does the stored
      one. */
  lemma {:induction false} FinishTimeMarksCompletion(db: Db, ops: seq<Op>, id: Id)
    requires Quiescent(db) && LegalRun(db, ops)
    requires id in db ==> FinishMarksCompletion(db[id])
    requires forall op :: op in ops && HandsIn(op, id) ==> FinishMarksCompletion(op.t)
    ensures id in RunDb(db, ops) ==> FinishMarksCompletion(RunDb(db, ops)[id])
    decreases |ops|
  {
    if ops != [] {
      OpEffect(db, ops[0]);
      OpKeepsFinishMark(db, ops[0], id);
      FinishTimeMarksCompletion(Puts(db, Writes(db, ops[0])), ops[1..], id);
    }
  }
}
