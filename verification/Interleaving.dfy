/** What overlapping operations do to the lifecycle, over either store. */
module Interleaving {
  import opened TaskState
  import opened Tasks
  import opened Goroutines
  import Dispatcher

  type Config = Dispatcher.Config
  type Action = Dispatcher.Action

  // ---------------------------------------------------------------- records

  /** What a thread is about to write, or has written, follows what its check has read. */
  predicate OnRecord(th: Thread) {
    match th.step
    case Assign(seen) => ValidStateTransition(seen, Goal(th.stage))
    case Publish(seen) => th.stage.Follow? || ValidStateTransition(seen, Goal(th.stage))
    case _ => true
  }

  ghost predicate AllOnRecord(w: World) {
    forall tid :: tid in w.threads ==> OnRecord(w.threads[tid])
  }

  /** A step changes the thread that takes it, and makes or ends threads; it leaves the others alone. */
  lemma GoKeepsRecords(w: World, tid: Tid)
    requires Sane(w) && AllOnRecord(w) && tid in w.threads
    ensures w.threads[tid].step.Guard? ==> AllOnRecord(Checked(w, tid))
    ensures w.threads[tid].step.Copy? ==> AllOnRecord(Copied(w, tid))
    ensures w.threads[tid].step.Assign? ==> AllOnRecord(Assigned(w, tid))
    ensures w.threads[tid].step.Publish? ==> AllOnRecord(Published(w, tid))
  {
    assert OnRecord(w.threads[tid]);
  }

  lemma ContinueKeepsRecords(w: World, tid: Tid, ok: bool)
    requires Sane(w) && AllOnRecord(w) && tid in w.threads
    ensures AllOnRecord(Continued(w, tid, ok))
  {
  }

  lemma CallKeepsRecords(w: World, n: nat, call: Call)
    requires Sane(w) && AllOnRecord(w) && (Fetches(call) ==> call.id in w.db)
    ensures AllOnRecord(Called(w, n, call))
  {
  }

  lemma DispatchKeepsRecords(c: Config, w: World, a: Action)
    requires AllOnRecord(w) && Dispatcher.Enabled(c, w.d, a) && (a.Launch? ==> w.d.phase.k < |w.d.accepted|)
    ensures AllOnRecord(Dispatched(c, w, a))
  {
  }

  lemma StepKeepsRecords(c: Config, w: World, e: Event)
    requires Possible(c, w, e) && AllOnRecord(w)
    ensures AllOnRecord(Happen(c, w, e))
  {
    match e {
      case Dispatching(a) => DispatchKeepsRecords(c, w, a);
      case Look(_) =>
      case Begin(n, call) => CallKeepsRecords(w, n, call);
      case Go(tid) => GoKeepsRecords(w, tid);
      case Continue(tid, ok) => ContinueKeepsRecords(w, tid, ok);
    }
  }

  lemma {:induction false} RunKeepsRecords(c: Config, w: World, es: seq<Event>)
    requires ValidRun(c, w, es) && AllOnRecord(w)
    ensures AllOnRecord(Run(c, w, es))
    decreases |es|
  {
    if es != [] {
      StepKeepsRecords(c, w, es[0]);
      RunKeepsRecords(c, Happen(c, w, es[0]), es[1..]);
    }
  }

  /** The store shows task `id` in state `s`. */
  predicate Shows(w: World, id: Id, s: State) {
    id in w.db && w.db[id] < |w.cells| && w.cells[w.db[id]].state == s
  }

  /** The step assigns to the stored variable, or puts another one in its place. */
  predicate Reaches(w: World, e: Event, id: Id) {
    && e.Go? && e.tid in w.threads && w.threads[e.tid].r < |w.cells|
    && var th := w.threads[e.tid];
      || (th.step.Assign? && id in w.db && th.r == w.db[id])
      || (th.step.Publish? && w.cells[th.r].id == id)
  }

  /** The state that the step stores. */
  function Stores(w: World, e: Event): State
    requires e.Go? && e.tid in w.threads && w.threads[e.tid].r < |w.cells|
  {
    var th := w.threads[e.tid];
    if th.step.Assign? then Goal(th.stage) else w.cells[th.r].state
  }

  /** A step takes a task out of Completed exactly if it assigns another state to the stored variable, or puts a
      variable that holds another state; and then what the check had read, or what the variable holds, is not
      what is stored. */
  lemma LosesCompletedExactlyWhen(c: Config, w: World, e: Event, id: Id)
    requires Possible(c, w, e) && AllOnRecord(w) && Shows(w, id, Completed)
    ensures !Shows(Happen(c, w, e), id, Completed) <==> Reaches(w, e, id) && Stores(w, e) != Completed
    ensures !Shows(Happen(c, w, e), id, Completed) ==>
      var th := w.threads[e.tid];
      if th.step.Assign? then th.step.seen != Completed else w.cells[th.r].state != Completed
  {
    if e.Go? {
      assert OnRecord(w.threads[e.tid]);
    }
  }

  /** In every interleaving, over either store: each assignment follows, in the table, the state that its own check
      has read.  So whenever a step takes a task out of Completed, that state, or the one in the variable that is
      put, is not the one that is stored. */
  lemma WritesFollowTheirRecord(c: Config, shared: bool, es: seq<Event>, e: Event, id: Id)
    requires ValidRun(c, InitialWorld(shared), es) && Possible(c, Run(c, InitialWorld(shared), es), e)
    ensures var w := Run(c, InitialWorld(shared), es);
      && (e.Go? && w.threads[e.tid].step.Assign? ==>
            ValidStateTransition(w.threads[e.tid].step.seen, Goal(w.threads[e.tid].stage)))
      && (Shows(w, id, Completed) && !Shows(Happen(c, w, e), id, Completed) ==>
            && Reaches(w, e, id)
            && var th := w.threads[e.tid];
              !Shows(w, id, if th.step.Assign? then th.step.seen else w.cells[th.r].state))
  {
    RunKeepsRecords(c, InitialWorld(shared), es);
    var w := Run(c, InitialWorld(shared), es);
    if e.Go? {
      assert OnRecord(w.threads[e.tid]);
    }
    if Shows(w, id, Completed) {
      LosesCompletedExactlyWhen(c, w, e, id);
    }
  }

  // ---------------------------------------------------------------- fresh steps

  /** The variable still is as the check read it; what is stored is what is put, or what the check read and the
      put follows. */
  predicate Fresh(w: World, e: Event) {
    e.Go? && e.tid in w.threads && w.threads[e.tid].r < |w.cells| ==>
      var th, t := w.threads[e.tid], w.cells[w.threads[e.tid].r];
      && (th.step.Assign? ==> t.state == th.step.seen)
      && (th.step.Publish? && t.id in w.db ==>
            Shows(w, t.id, t.state) || (Shows(w, t.id, th.step.seen) && ValidStateTransition(th.step.seen, t.state)))
  }

  ghost predicate FreshRun(c: Config, w: World, es: seq<Event>)
    requires ValidRun(c, w, es)
    decreases |es|
  {
    es == [] || (Fresh(w, es[0]) && FreshRun(c, Happen(c, w, es[0]), es[1..]))
  }

  /** Overlapping operations keep Completed for good as long as none of their steps is stale. */
  lemma {:induction false} CompletedSurvivesFreshRuns(c: Config, w: World, es: seq<Event>, id: Id)
    requires ValidRun(c, w, es) && FreshRun(c, w, es) && AllOnRecord(w) && Shows(w, id, Completed)
    ensures Shows(Run(c, w, es), id, Completed)
    decreases |es|
  {
    if es != [] {
      LosesCompletedExactlyWhen(c, w, es[0], id);
      StepKeepsRecords(c, w, es[0]);
      CompletedSurvivesFreshRuns(c, Happen(c, w, es[0]), es[1..], id);
    }
  }

  // ---------------------------------------------------------------- one operation against Completed

  /** The run is the moves of one operation. */
  ghost predicate Alone(es: seq<Event>, tid: Tid) {
    forall e :: e in es ==> (e.Go? || e.Continue?) && e.tid == tid
  }

  /** The operation is at a check, and its variable is in this state: it will store something other than
      Completed. */
  predicate Overwrites(stage: Stage, s: State) {
    if stage.Found? then s == Scheduled
    else if ValidStateTransition(s, Goal(stage)) then Goal(stage) != Completed
    else if FailsIfRefused(stage) then ValidStateTransition(s, Failed)
    else stage.Follow? && s != Completed
  }

  /** The operation will store nothing but Completed. */
  predicate Harmless(w: World, tid: Tid) {
    tid in w.threads && w.threads[tid].r < |w.cells| &&
    var th := w.threads[tid];
    var s := w.cells[th.r].state;
    match th.step
    case Guard => !Overwrites(th.stage, s)
    case Copy => !Overwrites(th.stage, s)
    case Assign(_) => Goal(th.stage) == Completed && (th.stage.ToCompleted? || th.stage.Follow?)
    case Publish(_) => s == Completed && (th.stage.ToCompleted? || th.stage.Follow?)
    case After => th.stage.ToCompleted? || th.stage.Follow?
    case Over => true
  }

  lemma HarmlessCheck(w: World, tid: Tid)
    requires Sane(w) && Harmless(w, tid)
    ensures w.threads[tid].step.Guard? ==> Harmless(Checked(w, tid), tid)
    ensures w.threads[tid].step.Copy? ==> Harmless(Copied(w, tid), tid)
  {
  }

  lemma HarmlessContinue(w: World, tid: Tid, ok: bool)
    requires Sane(w) && Harmless(w, tid) && w.threads[tid].step.After?
    ensures Harmless(Continued(w, tid, ok), tid)
  {
  }

  lemma HarmlessStep(c: Config, w: World, e: Event, tid: Tid, id: Id)
    requires Possible(c, w, e) && (e.Go? || e.Continue?) && e.tid == tid
    requires Harmless(w, tid) && Shows(w, id, Completed)
    ensures Harmless(Happen(c, w, e), tid) && Shows(Happen(c, w, e), id, Completed)
  {
    if e.Continue? {
      HarmlessContinue(w, tid, e.ok);
    } else {
      HarmlessCheck(w, tid);
    }
  }

  lemma {:induction false} HarmlessRun(c: Config, w: World, es: seq<Event>, tid: Tid, id: Id)
    requires ValidRun(c, w, es) && Alone(es, tid) && Harmless(w, tid) && Shows(w, id, Completed)
    ensures Shows(Run(c, w, es), id, Completed)
    decreases |es|
  {
    if es != [] {
      assert es[0] in es;
      HarmlessStep(c, w, es[0], tid, id);
      HarmlessRun(c, Happen(c, w, es[0]), es[1..], tid, id);
    }
  }

  /** From a check that passes, three moves store the goal. */
  lemma PassesAndStores(c: Config, w: World, tid: Tid) returns (es: seq<Event>)
    requires Sane(w) && tid in w.threads && w.threads[tid].step.Guard? && !w.threads[tid].stage.Found?
    requires ValidStateTransition(w.cells[w.threads[tid].r].state, Goal(w.threads[tid].stage))
    ensures ValidRun(c, w, es) && Alone(es, tid)
    ensures var w', th := Run(c, w, es), w.threads[tid];
      && Sane(w') && Shows(w', w.cells[th.r].id, Goal(th.stage)) && tid in w'.threads
      && w'.threads == w.threads[tid := th.(step := After)] && |w.cells| <= |w'.cells|
      && w'.d == w.d && w'.started == w.started
      && (forall r :: 0 <= r < |w.cells| ==>
            w'.cells[r] == if r == th.r then w.cells[r].(state := Goal(th.stage)) else w.cells[r])
  {
    var e, th := Go(tid), w.threads[tid];
    StepIsSane(c, w, e);
    var w1 := Happen(c, w, e);
    assert w1 == WithThread(w, tid, th.(step := Assign(w.cells[th.r].state)));
    StepIsSane(c, w1, e);
    var w2 := Happen(c, w1, e);
    assert w2 == Assigned(w1, tid);
    StepIsSane(c, w2, e);
    assert Happen(c, w2, e) == Published(w2, tid);
    Prepend(c, w2, e, []);
    Prepend(c, w1, e, [e] + []);
    Prepend(c, w, e, [e] + ([e] + []));
    es := [e] + ([e] + ([e] + []));
  }

  /** An operation that is at a check while its task is stored as Completed, in whatever state its own variable is:
      left to itself it can store another state if and only if its check, or that of the failTask it turns to,
      lets it. */
  lemma ReplacesCompletedExactlyWhen(c: Config, w: World, tid: Tid)
    requires Sane(w) && tid in w.threads && w.threads[tid].step.Guard?
    requires Shows(w, w.cells[w.threads[tid].r].id, Completed)
    ensures var th := w.threads[tid];
      (exists es :: ValidRun(c, w, es) && Alone(es, tid) && !Shows(Run(c, w, es), w.cells[th.r].id, Completed)) <==>
      Overwrites(th.stage, w.cells[th.r].state)
  {
    var th := w.threads[tid];
    var t := w.cells[th.r];
    if !Overwrites(th.stage, t.state) {
      forall es | ValidRun(c, w, es) && Alone(es, tid) ensures Shows(Run(c, w, es), t.id, Completed) {
        HarmlessRun(c, w, es, tid, t.id);
      }
    } else if !th.stage.Found? && ValidStateTransition(t.state, Goal(th.stage)) {
      var es := PassesAndStores(c, w, tid);
    } else {
      var es := RefusedAndStores(c, w, tid);
    }
  }

  /** From the copy for failTask, or from the check of a task that is Scheduled, to another state than Completed. */
  lemma FailsAndStores(c: Config, w: World, tid: Tid) returns (es: seq<Event>)
    requires Sane(w) && tid in w.threads && w.threads[tid].step.Copy? && w.threads[tid].stage.ToFailed?
    requires ValidStateTransition(w.cells[w.threads[tid].r].state, Failed)
    ensures ValidRun(c, w, es) && Alone(es, tid)
    ensures !Shows(Run(c, w, es), w.cells[w.threads[tid].r].id, Completed)
  {
    StepIsSane(c, w, Go(tid));
    var rest := PassesAndStores(c, Happen(c, w, Go(tid)), tid);
    Prepend(c, w, Go(tid), rest);
    es := [Go(tid)] + rest;
  }

  /** From a check that is refused, or comes before the one that counts, to a state other than Completed. */
  lemma RefusedAndStores(c: Config, w: World, tid: Tid) returns (es: seq<Event>)
    requires Sane(w) && tid in w.threads && w.threads[tid].step.Guard?
    requires var th := w.threads[tid]; var s := w.cells[th.r].state;
      (th.stage.Found? || !ValidStateTransition(s, Goal(th.stage))) && Overwrites(th.stage, s)
    ensures ValidRun(c, w, es) && Alone(es, tid)
    ensures !Shows(Run(c, w, es), w.cells[w.threads[tid].r].id, Completed)
  {
    var e := Go(tid);
    StepIsSane(c, w, e);
    var w1 := Happen(c, w, e);
    var rest;
    if w.threads[tid].stage.Follow? {
      StepIsSane(c, w1, e);
      Prepend(c, w1, e, []);
      rest := [e] + [];
    } else if w1.threads[tid].stage.ToFailed? {
      rest := FailsAndStores(c, w1, tid);
    } else {
      rest := PassesAndStores(c, w1, tid);
    }
    es := [e] + rest;
    Prepend(c, w, e, rest);
  }

  /** The operation is at its check, on a variable of its own that shows the task Running. */
  predicate Poised(w: World, tid: Tid, stage: Stage, r: Ref, id: Id) {
    tid in w.threads && w.threads[tid] == Thread(stage, r, Guard) && r < |w.cells| && w.cells[r] == Cell(id, Running)
  }

  /** A failure and a stop that both saw the task Running are called. */
  lemma BothCalled(c: Config, w: World, id: Id, m: nat, n: nat) returns (es: seq<Event>, r: Ref)
    requires Sane(w) && m != n && Caller(m) !in w.threads && Caller(n) !in w.threads
    ensures ValidRun(c, w, es) && Sane(Run(c, w, es))
    ensures Poised(Run(c, w, es), Caller(m), ToFailed, r, id) && Poised(Run(c, w, es), Caller(n), ToStopping, r + 1, id)
  {
    var e, f := Begin(m, Fail(Cell(id, Running))), Begin(n, Stop(Cell(id, Running)));
    StepIsSane(c, w, e);
    var w1 := Happen(c, w, e);
    StepIsSane(c, w1, f);
    Prepend(c, w1, f, []);
    Prepend(c, w, e, [f] + []);
    es := [e] + ([f] + []);
    r := |w.cells|;
  }

  /** From a passed Put to the check of what comes next, while another operation stays poised. */
  lemma StopGoesOn(c: Config, w: World, tid: Tid)
    requires Sane(w) && tid in w.threads && w.threads[tid].step.After? && w.threads[tid].stage.ToStopping?
    requires w.cells[w.threads[tid].r].state == Stopping
    ensures var w' := Happen(c, w, Continue(tid, true));
      && Possible(c, w, Continue(tid, true)) && Sane(w')
      && w' == w.(threads := w.threads[tid := Thread(ToCompleted, w.threads[tid].r, Guard)])
  {
    StepIsSane(c, w, Continue(tid, true));
  }

  /** The stop, left to itself, while another operation stays poised. */
  lemma StopCompletes(c: Config, w: World, tid: Tid, other: Tid, r: Ref, id: Id) returns (es: seq<Event>)
    requires Sane(w) && Poised(w, tid, ToStopping, r + 1, id) && Poised(w, other, ToFailed, r, id)
    ensures ValidRun(c, w, es) && Sane(Run(c, w, es))
    ensures Shows(Run(c, w, es), id, Completed) && Poised(Run(c, w, es), other, ToFailed, r, id)
  {
    var first := PassesAndStores(c, w, tid);
    var w1 := Run(c, w, first);
    assert Poised(w1, other, ToFailed, r, id) && w1.threads[tid] == Thread(ToStopping, r + 1, After);
    StopGoesOn(c, w1, tid);
    var w2 := Happen(c, w1, Continue(tid, true));
    assert Poised(w2, other, ToFailed, r, id) && w2.threads[tid] == Thread(ToCompleted, r + 1, Guard);
    var second := PassesAndStores(c, w2, tid);
    assert Poised(Run(c, w2, second), other, ToFailed, r, id);
    Prepend(c, w1, Continue(tid, true), second);
    Concat(c, w, first, [Continue(tid, true)] + second);
    es := first + ([Continue(tid, true)] + second);
  }

  /** It does happen, over either store: wherever a task is stored as Running, a failure and a stop that both saw
      it so can leave it Completed first and Failed after that. */
  lemma LateFailureReplacesCompleted(c: Config, w: World, id: Id, m: nat, n: nat)
    returns (es: seq<Event>, fs: seq<Event>)
    requires Sane(w) && Shows(w, id, Running) && m != n && Caller(m) !in w.threads && Caller(n) !in w.threads
    ensures ValidRun(c, w, es) && Shows(Run(c, w, es), id, Completed)
    ensures ValidRun(c, Run(c, w, es), fs) && Shows(Run(c, Run(c, w, es), fs), id, Failed)
  {
    var calls, r := BothCalled(c, w, id, m, n);
    var w1 := Run(c, w, calls);
    var stop := StopCompletes(c, w1, Caller(n), Caller(m), r, id);
    Concat(c, w, calls, stop);
    es := calls + stop;
    fs := PassesAndStores(c, Run(c, w1, stop), Caller(m));
  }
}
