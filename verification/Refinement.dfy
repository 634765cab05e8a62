/** The two models of the worker's operations agree: what an operation puts into the store in atomic steps, if no other
    comes between, is what the specification of the operation writes. */
module Refinement {
  import opened TaskState
  import opened Tasks
  import opened WorkerSpec
  import opened Goroutines
  import opened Interleaving
  import Dispatcher

  /** What the store shows for a task right after it was put. */
  datatype Shown = Shown(id: Id, state: State)

  ghost function ShownNow(c: Config, w: World, e: Event): seq<Shown> {
    if e.Go? && e.tid in w.threads && w.threads[e.tid].step.Publish? && w.threads[e.tid].r < |w.cells| then
      var id, w' := w.cells[w.threads[e.tid].r].id, Happen(c, w, e);
      if id in w'.db && w'.db[id] < |w'.cells| then [Shown(id, w'.cells[w'.db[id]].state)] else []
    else []
  }

  /** What it shows after the Puts of a run, in order. */
  ghost function ShownAlong(c: Config, w: World, es: seq<Event>): seq<Shown>
    decreases |es|
  {
    if es == [] then [] else ShownNow(c, w, es[0]) + ShownAlong(c, Happen(c, w, es[0]), es[1..])
  }

  function ShownBy(ws: seq<Task>): seq<Shown> {
    seq(|ws|, i requires 0 <= i < |ws| => Shown(ws[i].id, ws[i].state))
  }

  /** What sandbox and client say along the run. */
  ghost predicate Told(es: seq<Event>, ok: bool) {
    forall e :: e in es && e.Continue? ==> e.ok == ok
  }

  /** The moves of the operation alone, if it is told this, and what they show. */
  ghost predicate Does(c: Config, w: World, tid: Tid, ok: bool, es: seq<Event>, shown: seq<Shown>) {
    Sane(w) && ValidRun(c, w, es) && Alone(es, tid) && Told(es, ok) && ShownAlong(c, w, es) == shown
    && Sane(Run(c, w, es))
  }

  lemma NoMove(c: Config, w: World, tid: Tid, ok: bool)
    requires Sane(w)
    ensures Does(c, w, tid, ok, [], []) && Run(c, w, []) == w
  {
  }

  lemma MoveFirst(c: Config, w: World, tid: Tid, ok: bool, e: Event, es: seq<Event>, shown: seq<Shown>)
    requires Possible(c, w, e) && (e.Go? || e.Continue?) && e.tid == tid && (e.Continue? ==> e.ok == ok)
    requires Does(c, Happen(c, w, e), tid, ok, es, shown)
    ensures Does(c, w, tid, ok, [e] + es, ShownNow(c, w, e) + shown)
    ensures Run(c, w, [e] + es) == Run(c, Happen(c, w, e), es)
  {
    Prepend(c, w, e, es);
    assert ([e] + es)[1..] == es;
  }

  lemma ShownFirst(c: Config, w: World, e: Event, es: seq<Event>)
    ensures ShownAlong(c, w, [e] + es) == ShownNow(c, w, e) + ShownAlong(c, Happen(c, w, e), es)
  {
    assert ([e] + es)[1..] == es;
  }

  lemma {:induction false} ShownConcat(c: Config, w: World, es: seq<Event>, fs: seq<Event>)
    ensures ShownAlong(c, w, es + fs) == ShownAlong(c, w, es) + ShownAlong(c, Run(c, w, es), fs)
    decreases |es|
  {
    if es == [] {
      assert es + fs == fs;
    } else {
      var e, rest := es[0], es[1..];
      var w1 := Happen(c, w, e);
      ShownConcat(c, w1, rest, fs);
      ShownFirst(c, w, e, rest + fs);
      HeadFirst(es, fs);
      Associates(ShownNow(c, w, e), ShownAlong(c, w1, rest), ShownAlong(c, Run(c, w1, rest), fs));
    }
  }

  lemma Then(
      c: Config, w: World, tid: Tid, ok: bool, es: seq<Event>, shown: seq<Shown>, fs: seq<Event>, more: seq<Shown>)
    requires Does(c, w, tid, ok, es, shown) && Does(c, Run(c, w, es), tid, ok, fs, more)
    ensures Does(c, w, tid, ok, es + fs, shown + more)
    ensures Run(c, w, es + fs) == Run(c, Run(c, w, es), fs)
  {
    Concat(c, w, es, fs);
    ShownConcat(c, w, es, fs);
  }

  // ---------------------------------------------------------------- stages

  /** The thread stands here, on a variable that holds this. */
  predicate At(w: World, tid: Tid, stage: Stage, step: Step, t: Shown) {
    && tid in w.threads && w.threads[tid].stage == stage && w.threads[tid].step == step
    && w.threads[tid].r < |w.cells| && w.cells[w.threads[tid].r] == Cell(t.id, t.state)
  }

  /** From a check that passes, the goal is put. */
  lemma PutsGoal(c: Config, w: World, tid: Tid, stage: Stage, t: Shown, ok: bool) returns (es: seq<Event>)
    requires Sane(w) && At(w, tid, stage, Guard, t) && !stage.Found? && ValidStateTransition(t.state, Goal(stage))
    ensures Does(c, w, tid, ok, es, [Shown(t.id, Goal(stage))])
    ensures var w' := Run(c, w, es); At(w', tid, stage, After, Shown(t.id, Goal(stage))) && w'.started == w.started
  {
    var e := Go(tid);
    StepIsSane(c, w, e);
    var w1 := Happen(c, w, e);
    assert At(w1, tid, stage, Assign(t.state), t);
    StepIsSane(c, w1, e);
    var w2 := Happen(c, w1, e);
    assert At(w2, tid, stage, Publish(t.state), Shown(t.id, Goal(stage)));
    StepIsSane(c, w2, e);
    var w3 := Happen(c, w2, e);
    assert At(w3, tid, stage, After, Shown(t.id, Goal(stage)));
    NoMove(c, w3, tid, ok);
    MoveFirst(c, w2, tid, ok, e, [], []);
    MoveFirst(c, w1, tid, ok, e, [e] + [], ShownNow(c, w2, e) + []);
    MoveFirst(c, w, tid, ok, e, [e] + ([e] + []), ShownNow(c, w1, e) + (ShownNow(c, w2, e) + []));
    es := [e] + ([e] + ([e] + []));
    assert ShownNow(c, w, e) == [] && ShownNow(c, w1, e) == [];
  }

  /** A single move that puts nothing. */
  lemma OneMove(c: Config, w: World, tid: Tid, ok: bool, e: Event)
    requires Possible(c, w, e) && (e.Go? || e.Continue?) && e.tid == tid && (e.Continue? ==> e.ok == ok)
    requires e.Go? ==> !w.threads[tid].step.Publish?
    ensures Does(c, w, tid, ok, [e], []) && Run(c, w, [e]) == Happen(c, w, e)
  {
    StepIsSane(c, w, e);
    NoMove(c, Happen(c, w, e), tid, ok);
    MoveFirst(c, w, tid, ok, e, [], []);
    assert [e] + [] == [e];
  }

  predicate Done(w: World, tid: Tid) {
    tid in w.threads && w.threads[tid].step.Over?
  }

  /** The whole of failTask. */
  lemma Fails(c: Config, w: World, tid: Tid, t: Shown, ok: bool) returns (es: seq<Event>)
    requires Sane(w) && At(w, tid, ToFailed, Guard, t)
    ensures Does(c, w, tid, ok, es, if ValidStateTransition(t.state, Failed) then [Shown(t.id, Failed)] else [])
    ensures Done(Run(c, w, es), tid) && Run(c, w, es).started == w.started
  {
    if ValidStateTransition(t.state, Failed) {
      var put := PutsGoal(c, w, tid, ToFailed, t, ok);
      var w1 := Run(c, w, put);
      OneMove(c, w1, tid, ok, Continue(tid, ok));
      Then(c, w, tid, ok, put, [Shown(t.id, Failed)], [Continue(tid, ok)], []);
      es := put + [Continue(tid, ok)];
    } else {
      OneMove(c, w, tid, ok, Go(tid));
      es := [Go(tid)];
    }
  }

  /** failTask, from the copy that it gets. */
  lemma CopiesAndFails(c: Config, w: World, tid: Tid, t: Shown, ok: bool) returns (es: seq<Event>)
    requires Sane(w) && At(w, tid, ToFailed, Copy, t)
    ensures Does(c, w, tid, ok, es, if ValidStateTransition(t.state, Failed) then [Shown(t.id, Failed)] else [])
    ensures Done(Run(c, w, es), tid) && Run(c, w, es).started == w.started
  {
    OneMove(c, w, tid, ok, Go(tid));
    var w1 := Happen(c, w, Go(tid));
    StepIsSane(c, w, Go(tid));
    assert At(w1, tid, ToFailed, Guard, t);
    var fail := Fails(c, w1, tid, t, ok);
    var shown := if ValidStateTransition(t.state, Failed) then [Shown(t.id, Failed)] else [];
    Then(c, w, tid, ok, [Go(tid)], [], fail, shown);
    es := [Go(tid)] + fail;
  }

  /** From a Put on: what the stage goes on with. */
  lemma GoesOn(c: Config, w: World, tid: Tid, stage: Stage, t: Shown, ok: bool)
    requires Sane(w) && At(w, tid, stage, After, t)
    ensures Does(c, w, tid, ok, [Continue(tid, ok)], [])
    ensures var w' := Run(c, w, [Continue(tid, ok)]);
      && Run(c, w, [Continue(tid, ok)]) == Happen(c, w, Continue(tid, ok)) && Sane(w')
      && (match stage
          case ToCreating => At(w', tid, if ok then ToScheduled else ToFailed, Guard, t)
          case ToStarting => At(w', tid, ToRunning, Guard, t)
          case ToRunning => if ok then Done(w', tid) else At(w', tid, ToFailed, Guard, t)
          case ToStopping => At(w', tid, if ok then ToCompleted else ToFailed, Guard, t)
          case _ => Done(w', tid))
      && w'.started == w.started + (if stage.ToRunning? && ok then {t.id} else {})
  {
    StepIsSane(c, w, Continue(tid, ok));
    OneMove(c, w, tid, ok, Continue(tid, ok));
  }

  /** A stage that passes, and what follows its Put. */
  lemma PutsAndGoesOn(c: Config, w: World, tid: Tid, stage: Stage, t: Shown, ok: bool) returns (es: seq<Event>)
    requires Sane(w) && At(w, tid, stage, Guard, t) && !stage.Found? && ValidStateTransition(t.state, Goal(stage))
    ensures Does(c, w, tid, ok, es, [Shown(t.id, Goal(stage))])
    ensures var w', u := Run(c, w, es), Shown(t.id, Goal(stage));
      && (match stage
          case ToCreating => At(w', tid, if ok then ToScheduled else ToFailed, Guard, u)
          case ToStarting => At(w', tid, ToRunning, Guard, u)
          case ToRunning => if ok then Done(w', tid) else At(w', tid, ToFailed, Guard, u)
          case ToStopping => At(w', tid, if ok then ToCompleted else ToFailed, Guard, u)
          case _ => Done(w', tid))
      && w'.started == w.started + (if stage.ToRunning? && ok then {t.id} else {})
  {
    var put := PutsGoal(c, w, tid, stage, t, ok);
    GoesOn(c, Run(c, w, put), tid, stage, Shown(t.id, Goal(stage)), ok);
    Then(c, w, tid, ok, put, [Shown(t.id, Goal(stage))], [Continue(tid, ok)], []);
    es := put + [Continue(tid, ok)];
  }

  /** A check that is refused, where that means failTask: between two parts, in StartTask, and where the worker is not
      healthy. */
  lemma RefusedFails(c: Config, w: World, tid: Tid, stage: Stage, t: Shown, ok: bool) returns (es: seq<Event>)
    requires Sane(w) && At(w, tid, stage, Guard, t)
    requires if stage.Found? then !stage.healthy && t.state == Scheduled
             else stage in {ToScheduled, ToStarting, ToRunning, ToCompleted}
                  && !ValidStateTransition(t.state, Goal(stage))
    ensures Does(c, w, tid, ok, es, if ValidStateTransition(t.state, Failed) then [Shown(t.id, Failed)] else [])
    ensures Done(Run(c, w, es), tid) && Run(c, w, es).started == w.started
  {
    OneMove(c, w, tid, ok, Go(tid));
    StepIsSane(c, w, Go(tid));
    var w1 := Happen(c, w, Go(tid));
    assert At(w1, tid, ToFailed, Copy, t);
    var fail := CopiesAndFails(c, w1, tid, t, ok);
    var shown := if ValidStateTransition(t.state, Failed) then [Shown(t.id, Failed)] else [];
    Then(c, w, tid, ok, [Go(tid)], [], fail, shown);
    es := [Go(tid)] + fail;
  }

  /** A check that is refused, where that ends the operation: at the beginning of the others, and in failTask. */
  lemma RefusedEnds(c: Config, w: World, tid: Tid, stage: Stage, t: Shown, ok: bool)
    requires Sane(w) && At(w, tid, stage, Guard, t)
    requires if stage.Found? then t.state != Scheduled
             else stage in {ToCreating, ToStopping, ToFailed} && !ValidStateTransition(t.state, Goal(stage))
    ensures Does(c, w, tid, ok, [Go(tid)], []) && Done(Run(c, w, [Go(tid)]), tid)
    ensures Run(c, w, [Go(tid)]) == w.(threads := w.threads[tid := w.threads[tid].(step := Over)])
  {
    OneMove(c, w, tid, ok, Go(tid));
  }

  /** failTask and StartTask get a copy of the task; all the rest of an operation works on one variable. */
  lemma WorksOn(c: Config, w: World, e: Event)
    requires Possible(c, w, e) && (e.Go? || e.Continue?)
    ensures var th, th' := w.threads[e.tid], Happen(c, w, e).threads[e.tid];
      if th.step.Copy? || (th'.step.Guard? && (th'.stage.ToFailed? || (th.stage.ToStarting? && th'.stage.ToRunning?)))
      then th'.r == |w.cells| else th'.r == th.r
  {
  }

  /** Told the same, an operation alone has only one way to its end. */
  lemma {:induction false} OneWay(c: Config, w: World, tid: Tid, ok: bool, es: seq<Event>, fs: seq<Event>)
    requires ValidRun(c, w, es) && Alone(es, tid) && Told(es, ok) && Done(Run(c, w, es), tid)
    requires ValidRun(c, w, fs) && Alone(fs, tid) && Told(fs, ok) && Done(Run(c, w, fs), tid)
    ensures es == fs
    decreases |es|
  {
    if es != [] && fs != [] {
      assert es[0] in es && fs[0] in fs;
      assert es[0] == fs[0];
      OneWay(c, Happen(c, w, es[0]), tid, ok, es[1..], fs[1..]);
      assert es == [es[0]] + es[1..] && fs == [fs[0]] + fs[1..];
    }
  }

  // ---------------------------------------------------------------- operations

  /** After the Put of a first part, a refusal by sandbox or client: failTask. */
  lemma PutsThenFails(c: Config, w: World, tid: Tid, stage: Stage, t: Shown) returns (es: seq<Event>)
    requires Sane(w) && At(w, tid, stage, Guard, t) && (stage.ToCreating? || stage.ToRunning? || stage.ToStopping?)
    requires ValidStateTransition(t.state, Goal(stage))
    ensures Does(c, w, tid, false, es, [Shown(t.id, Goal(stage)), Shown(t.id, Failed)])
    ensures Done(Run(c, w, es), tid) && Run(c, w, es).started == w.started
  {
    var u := Shown(t.id, Goal(stage));
    var put := PutsAndGoesOn(c, w, tid, stage, t, false);
    es := ThenFails(c, w, tid, put, u);
  }

  lemma ThenFails(c: Config, w: World, tid: Tid, put: seq<Event>, t: Shown) returns (es: seq<Event>)
    requires Does(c, w, tid, false, put, [t]) && At(Run(c, w, put), tid, ToFailed, Guard, t)
    requires ValidStateTransition(t.state, Failed)
    ensures Does(c, w, tid, false, es, [t, Shown(t.id, Failed)])
    ensures Done(Run(c, w, es), tid) && Run(c, w, es).started == Run(c, w, put).started
  {
    var fail := Fails(c, Run(c, w, put), tid, t, false);
    Then(c, w, tid, false, put, [t], fail, [Shown(t.id, Failed)]);
    es := put + fail;
    assert [t] + [Shown(t.id, Failed)] == [t, Shown(t.id, Failed)];
  }

  /** After the Put of a first part, the second part. */
  lemma PutsBoth(c: Config, w: World, tid: Tid, stage: Stage, t: Shown) returns (es: seq<Event>)
    requires Sane(w) && At(w, tid, stage, Guard, t) && (stage.ToCreating? || stage.ToStopping?)
    requires ValidStateTransition(t.state, Goal(stage))
    ensures Does(c, w, tid, true, es,
      [Shown(t.id, Goal(stage)), Shown(t.id, if stage.ToCreating? then Scheduled else Completed)])
    ensures Done(Run(c, w, es), tid) && Run(c, w, es).started == w.started
  {
    var next := if stage.ToCreating? then ToScheduled else ToCompleted;
    var u := Shown(t.id, Goal(stage));
    var put := PutsAndGoesOn(c, w, tid, stage, t, true);
    var more := PutsAndGoesOn(c, Run(c, w, put), tid, next, u, true);
    Then(c, w, tid, true, put, [u], more, [Shown(t.id, Goal(next))]);
    es := put + more;
  }

  lemma CreateRefines(c: Config, w: World, tid: Tid, t: Task, o: CreateOutcome) returns (es: seq<Event>)
    requires Sane(w) && At(w, tid, ToCreating, Guard, Shown(t.id, t.state))
    ensures Does(c, w, tid, o.Created?, es, ShownBy(CreateWrites(t, o))) && Done(Run(c, w, es), tid)
  {
    if !ValidStateTransition(t.state, Creating) {
      OneMove(c, w, tid, o.Created?, Go(tid));
      es := [Go(tid)];
    } else {
      CreationShows(t, o);
      if o.Created? {
        es := PutsBoth(c, w, tid, ToCreating, Shown(t.id, t.state));
      } else {
        es := PutsThenFails(c, w, tid, ToCreating, Shown(t.id, t.state));
      }
    }
  }

  lemma CreationShows(t: Task, o: CreateOutcome)
    requires ValidStateTransition(t.state, Creating)
    ensures ShownBy(CreateWrites(t, o)) ==
      [Shown(t.id, Creating), Shown(t.id, if o.Created? then Scheduled else Failed)]
  {
  }

  lemma StartRefines(c: Config, w: World, tid: Tid, t: Task, error: Option<string>) returns (es: seq<Event>)
    requires Sane(w) && At(w, tid, ToRunning, Guard, Shown(t.id, t.state))
    ensures Does(c, w, tid, error.None?, es, ShownBy(StartWrites(t, error))) && Done(Run(c, w, es), tid)
    ensures Run(c, w, es).started ==
      w.started + (if ValidStateTransition(t.state, Running) && error.None? then {t.id} else {})
  {
    StartShows(t, error);
    if !ValidStateTransition(t.state, Running) {
      es := RefusedFails(c, w, tid, ToRunning, Shown(t.id, t.state), error.None?);
    } else if error.None? {
      es := PutsAndGoesOn(c, w, tid, ToRunning, Shown(t.id, t.state), true);
    } else {
      es := PutsThenFails(c, w, tid, ToRunning, Shown(t.id, t.state));
    }
  }

  lemma StartShows(t: Task, error: Option<string>)
    ensures ShownBy(StartWrites(t, error)) ==
      if ValidStateTransition(t.state, Running) then
        [Shown(t.id, Running)] + if error.None? then [] else [Shown(t.id, Failed)]
      else if ValidStateTransition(t.state, Failed) then [Shown(t.id, Failed)]
      else []
  {
  }

  lemma StopRefines(c: Config, w: World, tid: Tid, t: Task, o: DeleteOutcome) returns (es: seq<Event>)
    requires Sane(w) && At(w, tid, ToStopping, Guard, Shown(t.id, t.state))
    ensures Does(c, w, tid, o.Deleted?, es, ShownBy(StopWrites(t, o))) && Done(Run(c, w, es), tid)
  {
    if !ValidStateTransition(t.state, Stopping) {
      OneMove(c, w, tid, o.Deleted?, Go(tid));
      es := [Go(tid)];
    } else {
      StopShows(t, o);
      if o.Deleted? {
        es := PutsBoth(c, w, tid, ToStopping, Shown(t.id, t.state));
      } else {
        es := PutsThenFails(c, w, tid, ToStopping, Shown(t.id, t.state));
      }
    }
  }

  lemma StopShows(t: Task, o: DeleteOutcome)
    requires ValidStateTransition(t.state, Stopping)
    ensures ShownBy(StopWrites(t, o)) ==
      [Shown(t.id, Stopping), Shown(t.id, if o.Deleted? then Completed else Failed)]
  {
  }

  lemma FailRefines(c: Config, w: World, tid: Tid, t: Task, msg: Message, ok: bool) returns (es: seq<Event>)
    requires Sane(w) && At(w, tid, ToFailed, Guard, Shown(t.id, t.state))
    ensures Does(c, w, tid, ok, es, ShownBy(FailWrites(t, msg))) && Done(Run(c, w, es), tid)
  {
    es := Fails(c, w, tid, Shown(t.id, t.state), ok);
    assert ShownBy(FailWrites(t, msg)) ==
      if ValidStateTransition(t.state, Failed) then [Shown(t.id, Failed)] else [];
  }

  /** The state that an output asks for. */
  function Target(o: Output): State {
    if o.state == "running" then Running else if o.state == "completed" then Completed else Failed
  }

  lemma UpdatedShows(t: Task, o: Output)
    requires Recognised(o)
    ensures ShownBy(UpdateWrites(t, o)) ==
      [Shown(t.id, if ValidStateTransition(t.state, Target(o)) then Target(o) else t.state)]
  {
  }

  lemma UpdateRefines(c: Config, w: World, tid: Tid, t: Task, o: Output, ok: bool) returns (es: seq<Event>)
    requires Sane(w) && At(w, tid, Follow(Target(o)), Guard, Shown(t.id, t.state)) && Recognised(o)
    ensures Does(c, w, tid, ok, es, ShownBy(UpdateWrites(t, o))) && Done(Run(c, w, es), tid)
  {
    UpdatedShows(t, o);
    if ValidStateTransition(t.state, Target(o)) {
      es := PutsAndGoesOn(c, w, tid, Follow(Target(o)), Shown(t.id, t.state), ok);
    } else {
      es := PutsAgain(c, w, tid, Target(o), Shown(t.id, t.state), ok);
    }
  }

  /** An output for which there is no way is put all the same. */
  lemma PutsAgain(c: Config, w: World, tid: Tid, target: State, t: Shown, ok: bool) returns (es: seq<Event>)
    requires Sane(w) && At(w, tid, Follow(target), Guard, t) && !ValidStateTransition(t.state, target)
    ensures Does(c, w, tid, ok, es, [t]) && Done(Run(c, w, es), tid)
  {
    var e := Go(tid);
    OneMove(c, w, tid, ok, e);
    StepIsSane(c, w, e);
    var w1 := Happen(c, w, e);
    assert At(w1, tid, Follow(target), Publish(t.state), t);
    StepIsSane(c, w1, e);
    var w2 := Happen(c, w1, e);
    assert At(w2, tid, Follow(target), After, t);
    GoesOn(c, w2, tid, Follow(target), t, ok);
    MoveFirst(c, w1, tid, ok, e, [Continue(tid, ok)], []);
    Then(c, w, tid, ok, [e], [], [e] + [Continue(tid, ok)], ShownNow(c, w1, e) + []);
    es := [e] + ([e] + [Continue(tid, ok)]);
  }

  lemma RegisterRefines(c: Config, w: World, tid: Tid, t: Task, wi: WorkerInstance, error: Option<string>)
    returns (es: seq<Event>)
    requires Sane(w) && At(w, tid, Found(wi.isHealthy), Guard, Shown(t.id, t.state))
    ensures Does(c, w, tid, error.None?, es, ShownBy(RegisterWrites(Some(t), wi, error))) && Done(Run(c, w, es), tid)
    ensures Run(c, w, es).started ==
      w.started + (if t.state == Scheduled && wi.isHealthy && error.None? then {t.id} else {})
  {
    var ok, id := error.None?, t.id;
    if t.state != Scheduled {
      OneMove(c, w, tid, ok, Go(tid));
      es := [Go(tid)];
    } else if !wi.isHealthy {
      RegistrationShows(t, wi, error);
      es := RefusedFails(c, w, tid, Found(false), Shown(id, Scheduled), ok);
    } else {
      RegistrationShows(t, wi, error);
      es := HealthyRefines(c, w, tid, t, error);
    }
  }

  lemma RegistrationShows(t: Task, wi: WorkerInstance, error: Option<string>)
    requires t.state == Scheduled
    ensures ShownBy(RegisterWrites(Some(t), wi, error)) ==
      if wi.isHealthy then [Shown(t.id, Starting)] + ShownBy(StartWrites(AsStarting(t), error))
      else [Shown(t.id, Failed)]
  {
  }

  lemma ReachesStart(c: Config, w: World, tid: Tid, id: Id, ok: bool) returns (es: seq<Event>)
    requires Sane(w) && At(w, tid, Found(true), Guard, Shown(id, Scheduled))
    ensures Does(c, w, tid, ok, es, [Shown(id, Starting)])
    ensures At(Run(c, w, es), tid, ToRunning, Guard, Shown(id, Starting)) && Run(c, w, es).started == w.started
  {
    OneMove(c, w, tid, ok, Go(tid));
    StepIsSane(c, w, Go(tid));
    var w1 := Happen(c, w, Go(tid));
    assert At(w1, tid, ToStarting, Guard, Shown(id, Scheduled));
    var starting := PutsAndGoesOn(c, w1, tid, ToStarting, Shown(id, Scheduled), ok);
    Then(c, w, tid, ok, [Go(tid)], [], starting, [Shown(id, Starting)]);
    es := [Go(tid)] + starting;
  }

  lemma HealthyRefines(c: Config, w: World, tid: Tid, t: Task, error: Option<string>) returns (es: seq<Event>)
    requires Sane(w) && At(w, tid, Found(true), Guard, Shown(t.id, Scheduled))
    ensures Does(c, w, tid, error.None?, es, [Shown(t.id, Starting)] + ShownBy(StartWrites(AsStarting(t), error)))
    ensures Done(Run(c, w, es), tid)
    ensures Run(c, w, es).started == w.started + (if error.None? then {t.id} else {})
  {
    var first := ReachesStart(c, w, tid, t.id, error.None?);
    var second := StartRefines(c, Run(c, w, first), tid, AsStarting(t), error);
    var shown := ShownBy(StartWrites(AsStarting(t), error));
    Then(c, w, tid, error.None?, first, [Shown(t.id, Starting)], second, shown);
    es := first + second;
  }

  // ---------------------------------------------------------------- how they begin

  /** A goroutine that the dispatcher launches begins with createContainer, on what was accepted under its ticket. */
  lemma LaunchBegins(c: Config, w: World)
    requires Sane(w) && CanHappen(c, w, Dispatching(Dispatcher.Launch))
    ensures var w', k := Happen(c, w, Dispatching(Dispatcher.Launch)), w.d.phase.k;
      Sane(w') && At(w', Runner(k), ToCreating, Guard, Shown(w.d.accepted[k].id, w.d.accepted[k].state))
  {
    StepIsSane(c, w, Dispatching(Dispatcher.Launch));
  }

  /** A call stands at the first check of its operation, on what the store shows or the caller hands in. */
  ghost predicate Begun(w: World, w': World, tid: Tid, call: Call)
    requires Fetches(call) ==> call.id in w.db && w.db[call.id] < |w.cells|
  {
    match call
    case Register(id, healthy) => At(w', tid, Found(healthy), Guard, Shown(id, w.cells[w.db[id]].state))
    case Start(t) => At(w', tid, ToRunning, Guard, Shown(t.id, t.state))
    case Stop(t) => At(w', tid, ToStopping, Guard, Shown(t.id, t.state))
    case Fail(t) => At(w', tid, ToFailed, Guard, Shown(t.id, t.state))
    case Update(id, target) => At(w', tid, Follow(target), Guard, Shown(id, w.cells[w.db[id]].state))
  }

  lemma CallBegins(c: Config, w: World, n: nat, call: Call)
    requires Sane(w) && CanHappen(c, w, Begin(n, call))
    ensures var w' := Happen(c, w, Begin(n, call)); Sane(w') && Begun(w, w', Caller(n), call)
  {
    StepIsSane(c, w, Begin(n, call));
  }

  /** The in-memory store hands out its own variables, the persistent one copies. */
  lemma FetchedIsStored(c: Config, w: World, n: nat, call: Call)
    requires Sane(w) && CanHappen(c, w, Begin(n, call)) && (call.Register? || call.Update?)
    ensures var r := Happen(c, w, Begin(n, call)).threads[Caller(n)].r;
      if w.shared then r == w.db[call.id] else r == |w.cells|
  {
  }

  /** Whatever else is under way, such a call can begin. */
  lemma CallCanBegin(c: Config, w: World, n: nat, call: Call)
    requires Sane(w) && Caller(n) !in w.threads
    requires call.Register? || call.Update? ==> call.id in w.db
    requires call.Update? ==> call.id in w.started && call.target in {Running, Completed, Failed}
    ensures CanHappen(c, w, Begin(n, call))
  {
  }
}
