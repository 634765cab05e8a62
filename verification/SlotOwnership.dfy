/** Which goroutine stands behind a task that is stored as Creating, over either store. */
module SlotOwnership {
  import opened TaskState
  import opened Tasks
  import opened Goroutines
  import Dispatcher

  type Config = Dispatcher.Config
  type Action = Dispatcher.Action
  type Ticket = Dispatcher.Ticket

  // ---------------------------------------------------------------- what every step keeps

  /** createContainer starts on such a task; it refuses all the others, restarted ones among them. */
  predicate Creatable(t: Task) {
    ValidStateTransition(t.state, Creating)
  }

  /** Before anything happened to the task, or after it was refused. */
  predicate Untouched(th: Thread) {
    th.stage.ToCreating? && (th.step.Guard? || th.step.Over?)
  }

  /** Between the first and the second write of createContainer. */
  predicate InCreation(th: Thread) {
    (th.stage.ToCreating? && (th.step.Publish? || th.step.After?)) ||
    (th.stage.ToScheduled? && (th.step.Guard? || th.step.Assign?))
  }

  /** A runTask goroutine works on variables with its own task's id, and gets past the first check only with a
      task that can be created. */
  predicate OwnWork(w: World, k: Ticket, th: Thread) {
    && k < |w.d.accepted| && th.r < |w.cells| && w.cells[th.r].id == w.d.accepted[k].id
    && (th.stage.ToCreating? || th.stage.ToScheduled? || th.stage.ToFailed?)
    && if Untouched(th)
       then w.cells[th.r].state == w.d.accepted[k].state && (th.step.Over? ==> !Creatable(w.d.accepted[k]))
       else Creatable(w.d.accepted[k]) && (!w.shared && InCreation(th) ==> w.cells[th.r].state == Creating)
  }

  /** Only runTask goroutines create containers. */
  predicate Mine(w: World, tid: Tid, th: Thread) {
    && (th.stage.ToCreating? || th.stage.ToScheduled? ==> tid.Runner?)
    && (th.stage.Follow? ==> th.stage.target in {Running, Completed, Failed})
    && (th.step.Copy? ==> th.stage.ToFailed?)
    && (th.stage.Found? ==> th.step.Guard? || th.step.Over?)
    && (tid.Runner? ==> OwnWork(w, tid.k, th))
  }

  /** The variable is not in the store: not yet, or never, if the store keeps copies. */
  predicate Hidden(w: World, th: Thread) {
    !w.shared || (th.stage.ToCreating? && !th.step.After?) ||
    (th.stage.ToFailed? && (th.step.Guard? || th.step.Assign? || th.step.Publish?))
  }

  /** Nobody else can reach a hidden variable. */
  ghost predicate Exclusive(w: World, tid: Tid)
    requires tid in w.threads
  {
    && (forall id :: id in w.db ==> w.db[id] != w.threads[tid].r)
    && (forall other :: other in w.threads && other != tid ==> w.threads[other].r != w.threads[tid].r)
  }

  ghost predicate Ordered(c: Config, w: World) {
    && Sane(w) && Dispatcher.Inv(c, w.d)
    && (forall tid :: tid in w.threads ==> Mine(w, tid, w.threads[tid]))
    && (forall tid :: tid in w.threads && Hidden(w, w.threads[tid]) ==> Exclusive(w, tid))
  }

  /** The operation goes on with the same variable. */
  lemma MoveKeepsOrder(c: Config, w: World, tid: Tid, th: Thread)
    requires Ordered(c, w) && tid in w.threads && th.r == w.threads[tid].r && Mine(w, tid, th)
    requires Hidden(w, th) ==> Hidden(w, w.threads[tid])
    ensures Ordered(c, WithThread(w, tid, th))
  {
    WithThreadIsSane(w, tid, th);
  }

  lemma CopyKeepsOrder(c: Config, w: World, tid: Tid, stage: Stage, t: Cell)
    requires Ordered(c, w) && (tid in w.threads || tid.Caller?)
    requires !stage.ToCreating? && !stage.ToScheduled?
    requires stage.Follow? ==> stage.target in {Running, Completed, Failed}
    requires tid.Runner? ==>
      stage.ToFailed? && t.id == w.cells[w.threads[tid].r].id && !Untouched(w.threads[tid])
    ensures Ordered(c, OnCopy(w, tid, stage, t))
  {
    var w' := OnCopy(w, tid, stage, t);
    assert tid.Runner? ==> Mine(w, tid, w.threads[tid]);
    forall other | other in w'.threads ensures Mine(w', other, w'.threads[other]) {
      assert other != tid ==> Mine(w, other, w.threads[other]);
    }
    forall other | other in w'.threads && Hidden(w', w'.threads[other]) ensures Exclusive(w', other) {
      assert other != tid ==> Exclusive(w, other);
    }
  }

  lemma FetchKeepsOrder(c: Config, w: World, tid: Tid, stage: Stage, id: Id)
    requires Ordered(c, w) && tid.Caller? && tid !in w.threads && id in w.db
    requires stage.Found? || (stage.Follow? && stage.target in {Running, Completed, Failed})
    ensures Ordered(c, OnFetched(w, tid, stage, id))
  {
    if !w.shared {
      CopyKeepsOrder(c, w, tid, stage, w.cells[w.db[id]]);
    } else {
      var w' := OnFetched(w, tid, stage, id);
      forall other | other in w'.threads && Hidden(w', w'.threads[other]) ensures Exclusive(w', other) {
        assert other != tid && Exclusive(w, other);
      }
    }
  }

  lemma CheckKeepsOrder(c: Config, w: World, tid: Tid)
    requires Ordered(c, w) && tid in w.threads && w.threads[tid].step.Guard?
    ensures Ordered(c, Checked(w, tid))
  {
    assert Mine(w, tid, w.threads[tid]);
    MoveKeepsOrder(c, w, tid, Check(w.threads[tid], w.cells[w.threads[tid].r].state));
  }

  lemma CopyStepKeepsOrder(c: Config, w: World, tid: Tid)
    requires Ordered(c, w) && tid in w.threads && w.threads[tid].step.Copy?
    ensures Ordered(c, Copied(w, tid))
  {
    assert Mine(w, tid, w.threads[tid]);
    CopyKeepsOrder(c, w, tid, ToFailed, w.cells[w.threads[tid].r]);
  }

  lemma AssignKeepsOrder(c: Config, w: World, tid: Tid)
    requires Ordered(c, w) && tid in w.threads && w.threads[tid].step.Assign?
    ensures Ordered(c, Assigned(w, tid))
  {
    AssignIsSane(w, tid);
    var w' := Assigned(w, tid);
    forall other | other in w'.threads ensures Mine(w', other, w'.threads[other]) {
      assert Mine(w, other, w.threads[other]);
    }
    forall other | other in w'.threads && Hidden(w', w'.threads[other]) ensures Exclusive(w', other) {
      assert Exclusive(w, other);
    }
  }

  lemma PublishKeepsOrder(c: Config, w: World, tid: Tid)
    requires Ordered(c, w) && tid in w.threads && w.threads[tid].step.Publish?
    ensures Ordered(c, Published(w, tid))
  {
    PublishIsSane(w, tid);
    var w' := Published(w, tid);
    forall other | other in w'.threads ensures Mine(w', other, w'.threads[other]) {
      assert Mine(w, other, w.threads[other]);
    }
    forall other | other in w'.threads && Hidden(w', w'.threads[other]) ensures Exclusive(w', other) {
      assert Exclusive(w, other);
    }
  }

  lemma ContinueKeepsOrder(c: Config, w: World, tid: Tid, ok: bool)
    requires Ordered(c, w) && tid in w.threads && w.threads[tid].step.After?
    ensures Ordered(c, Continued(w, tid, ok))
  {
    var th := w.threads[tid];
    assert Mine(w, tid, th);
    if th.stage.ToStarting? {
      CopyKeepsOrder(c, w, tid, ToRunning, w.cells[th.r]);
    } else if !ok && (th.stage.ToCreating? || th.stage.ToRunning? || th.stage.ToStopping?) {
      CopyKeepsOrder(c, w, tid, ToFailed, w.cells[th.r]);
    } else if th.stage.ToCreating? || th.stage.ToStopping? {
      MoveKeepsOrder(c, w, tid, Thread(if th.stage.ToCreating? then ToScheduled else ToCompleted, th.r, Guard));
    } else {
      MoveKeepsOrder(c, w, tid, th.(step := Over));
    }
  }

  lemma CallKeepsOrder(c: Config, w: World, n: nat, call: Call)
    requires Ordered(c, w) && CanHappen(c, w, Begin(n, call))
    ensures Ordered(c, Called(w, n, call))
  {
    if Fetches(call) {
      FetchKeepsOrder(c, w, Caller(n), FirstStage(call), call.id);
    } else {
      CopyKeepsOrder(c, w, Caller(n), FirstStage(call), call.t);
    }
  }

  /** What a dispatcher step does to the acceptance order and the live goroutines. */
  lemma DispatchFrame(c: Config, d: Dispatcher.Dispatch, a: Action)
    requires Dispatcher.Inv(c, d) && Dispatcher.Enabled(c, d, a)
    ensures var d' := Dispatcher.Apply(c, d, a);
      && d'.accepted == d.accepted +
           (if a.Submit? && Dispatcher.Admitted(a.t) then [Dispatcher.Identified(a.t, a.newId)] else [])
      && d'.running == (match a
                        case Launch => d.running + {d.phase.k}
                        case Release(k) => d.running - {k}
                        case _ => d.running)
      && d'.finished == (if a.Release? then d.finished + {a.k} else d.finished)
    ensures a.Launch? ==> d.phase.k < |d.accepted| && d.phase.k !in d.running && d.phase.k !in d.finished
  {
    if a.Launch? {
      assert Dispatcher.ConservedAt(d, d.phase.k);
    }
  }

  lemma LaunchKeepsOrder(c: Config, w: World)
    requires Ordered(c, w) && CanHappen(c, w, Dispatching(Dispatcher.Launch))
    ensures Ordered(c, Dispatched(c, w, Dispatcher.Launch))
  {
    DispatchIsSane(c, w, Dispatcher.Launch);
    DispatchFrame(c, w.d, Dispatcher.Launch);
    Dispatcher.StepKeepsInv(c, w.d, Dispatcher.Launch);
    var w', born := Dispatched(c, w, Dispatcher.Launch), Runner(w.d.phase.k);
    assert born !in w.threads;
    forall tid | tid in w'.threads ensures Mine(w', tid, w'.threads[tid]) {
      assert tid != born ==> Mine(w, tid, w.threads[tid]);
    }
    forall tid | tid in w'.threads && Hidden(w', w'.threads[tid]) ensures Exclusive(w', tid) {
      assert tid != born ==> Exclusive(w, tid);
    }
  }

  lemma DispatchKeepsOrder(c: Config, w: World, a: Action)
    requires Ordered(c, w) && CanHappen(c, w, Dispatching(a))
    ensures Ordered(c, Dispatched(c, w, a))
  {
    if a.Launch? {
      LaunchKeepsOrder(c, w);
    } else {
      DispatchIsSane(c, w, a);
      DispatchFrame(c, w.d, a);
      Dispatcher.StepKeepsInv(c, w.d, a);
      var w' := Dispatched(c, w, a);
      forall tid | tid in w'.threads ensures Mine(w', tid, w'.threads[tid]) {
        assert Mine(w, tid, w.threads[tid]);
      }
      forall tid | tid in w'.threads && Hidden(w', w'.threads[tid]) ensures Exclusive(w', tid) {
        assert Exclusive(w, tid);
      }
    }
  }

  lemma StepKeepsOrder(c: Config, w: World, e: Event)
    requires Ordered(c, w) && Possible(c, w, e)
    ensures Ordered(c, Happen(c, w, e))
  {
    match e {
      case Dispatching(a) => DispatchKeepsOrder(c, w, a);
      case Look(_) =>
      case Begin(n, call) => CallKeepsOrder(c, w, n, call);
      case Go(tid) =>
        match w.threads[tid].step {
          case Guard => CheckKeepsOrder(c, w, tid);
          case Copy => CopyStepKeepsOrder(c, w, tid);
          case Assign(_) => AssignKeepsOrder(c, w, tid);
          case _ => PublishKeepsOrder(c, w, tid);
        }
      case Continue(tid, ok) => ContinueKeepsOrder(c, w, tid, ok);
    }
  }

  lemma {:induction false} RunKeepsOrder(c: Config, w: World, es: seq<Event>)
    requires Ordered(c, w) && ValidRun(c, w, es)
    ensures Ordered(c, Run(c, w, es))
    decreases |es|
  {
    if es != [] {
      StepKeepsOrder(c, w, es[0]);
      RunKeepsOrder(c, Happen(c, w, es[0]), es[1..]);
    }
  }

  // ---------------------------------------------------------------- what is expected of callers

  /** No two tasks that can be created have the same id. */
  ghost predicate DistinctIds(accepted: seq<Task>) {
    forall i, j :: 0 <= i < j < |accepted| && Creatable(accepted[i]) && Creatable(accepted[j]) ==>
      accepted[i].id != accepted[j].id
  }

  /** A task that can be created has an id of its own, and StartTask is given a task that the store has shown.
      Tasks that cannot be created, such as restarted ones, may be submitted at will. */
  predicate Expected(w: World, e: Event) {
    match e
    case Dispatching(Submit(t, newId)) =>
      Creatable(t) ==> forall i :: 0 <= i < |w.d.accepted| && Creatable(w.d.accepted[i]) ==>
        w.d.accepted[i].id != Dispatcher.Identified(t, newId).id
    case Begin(_, Start(t)) => t in w.shown
    case _ => true
  }

  ghost predicate ExpectedRun(c: Config, w: World, es: seq<Event>)
    decreases |es|
  {
    es == [] || (Expected(w, es[0]) && ExpectedRun(c, Happen(c, w, es[0]), es[1..]))
  }

  // ---------------------------------------------------------------- tasks that have left Creating

  predicate Hot(s: State) {
    s == Scheduled || s == Starting || s == Running
  }

  /** A task that shows such a state was moved to Scheduled by createContainer. */
  predicate Earned(w: World, t: Cell) {
    Hot(t.state) ==> t.id in w.marked
  }

  predicate Warm(w: World, th: Thread)
    requires th.r < |w.cells|
  {
    var t := w.cells[th.r];
    && (th.stage.Found? ==> Earned(w, t))
    && (th.stage.ToStarting? || th.stage.Follow? ==> t.id in w.marked && t.state != Creating)
    && (th.stage.ToRunning? ==> if th.step.Guard? then Earned(w, t) else t.id in w.marked)
    && (th.step.Publish? ==>
          && (w.shared || !th.stage.ToScheduled? ==> Earned(w, t))
          && (!th.stage.ToCreating? ==> t.state != Creating))
  }

  ghost predicate AllEarned(w: World)
    requires Sane(w)
  {
    && (forall tid :: tid in w.threads ==> Warm(w, w.threads[tid]))
    && (forall id :: id in w.db ==> Earned(w, w.cells[w.db[id]]))
    && (forall t :: t in w.shown ==> Earned(w, t))
    && (forall id :: id in w.started ==> id in w.marked)
  }

  lemma MoveKeepsEarned(w: World, tid: Tid, th: Thread)
    requires Sane(w) && AllEarned(w) && tid in w.threads && th.r == w.threads[tid].r && Warm(w, th)
    ensures Sane(WithThread(w, tid, th)) && AllEarned(WithThread(w, tid, th))
  {
    WithThreadIsSane(w, tid, th);
  }

  lemma CopyKeepsEarned(w: World, tid: Tid, stage: Stage, t: Cell)
    requires Sane(w) && AllEarned(w) && Sane(OnCopy(w, tid, stage, t))
    requires !stage.Found? && !stage.ToStarting? && !stage.Follow? && (stage.ToRunning? ==> Earned(w, t))
    ensures AllEarned(OnCopy(w, tid, stage, t))
  {
    var w' := OnCopy(w, tid, stage, t);
    forall other | other in w'.threads ensures Warm(w', w'.threads[other]) {
      assert other != tid ==> Warm(w, w.threads[other]);
    }
  }

  lemma FetchKeepsEarned(w: World, tid: Tid, stage: Stage, id: Id)
    requires Sane(w) && AllEarned(w) && id in w.db && Sane(OnFetched(w, tid, stage, id))
    requires stage.Found? || (stage.Follow? && id in w.marked && w.cells[w.db[id]].state != Creating)
    ensures AllEarned(OnFetched(w, tid, stage, id))
  {
  }

  lemma CheckKeepsEarned(c: Config, w: World, tid: Tid)
    requires Ordered(c, w) && AllEarned(w) && tid in w.threads && w.threads[tid].step.Guard?
    ensures Sane(Checked(w, tid)) && AllEarned(Checked(w, tid))
  {
    assert Warm(w, w.threads[tid]) && Mine(w, tid, w.threads[tid]);
    MoveKeepsEarned(w, tid, Check(w.threads[tid], w.cells[w.threads[tid].r].state));
  }

  lemma CopyStepKeepsEarned(c: Config, w: World, tid: Tid)
    requires Ordered(c, w) && AllEarned(w) && tid in w.threads && w.threads[tid].step.Copy?
    ensures Sane(Copied(w, tid)) && AllEarned(Copied(w, tid))
  {
    assert Mine(w, tid, w.threads[tid]);
    CheckIsSane(w, tid);
    CopyKeepsEarned(w, tid, ToFailed, w.cells[w.threads[tid].r]);
  }

  lemma AssignedIsWarm(c: Config, w: World, tid: Tid)
    requires Ordered(c, w) && AllEarned(w) && tid in w.threads && w.threads[tid].step.Assign?
    ensures Warm(Assigned(w, tid), Assigned(w, tid).threads[tid])
  {
    assert Warm(w, w.threads[tid]) && Mine(w, tid, w.threads[tid]);
  }

  lemma AssignKeepsWarm(c: Config, w: World, tid: Tid, other: Tid)
    requires Ordered(c, w) && AllEarned(w) && tid in w.threads && w.threads[tid].step.Assign?
    requires other in w.threads && other != tid
    ensures Warm(Assigned(w, tid), w.threads[other])
  {
    assert Warm(w, w.threads[tid]) && Mine(w, tid, w.threads[tid]) && Warm(w, w.threads[other]);
    assert Hidden(w, w.threads[tid]) ==> Exclusive(w, tid);
  }

  lemma AssignKeepsEarned(c: Config, w: World, tid: Tid)
    requires Ordered(c, w) && AllEarned(w) && tid in w.threads && w.threads[tid].step.Assign?
    ensures Sane(Assigned(w, tid)) && AllEarned(Assigned(w, tid))
  {
    AssignIsSane(w, tid);
    var w', th := Assigned(w, tid), w.threads[tid];
    assert Warm(w, th) && Mine(w, tid, th);
    assert w.shared || !th.stage.ToScheduled? ==> Earned(w', w'.cells[th.r]);
    assert !w.shared ==> Exclusive(w, tid);
    forall other | other in w'.threads ensures Warm(w', w'.threads[other]) {
      if other == tid {
        AssignedIsWarm(c, w, tid);
      } else {
        AssignKeepsWarm(c, w, tid, other);
      }
    }
  }

  lemma PublishKeepsEarned(c: Config, w: World, tid: Tid)
    requires Ordered(c, w) && AllEarned(w) && tid in w.threads && w.threads[tid].step.Publish?
    ensures Sane(Published(w, tid)) && AllEarned(Published(w, tid))
  {
    PublishIsSane(w, tid);
    var w', t := Published(w, tid), w.cells[w.threads[tid].r];
    assert Warm(w, w.threads[tid]) && Earned(w', t);
    forall other | other in w'.threads ensures Warm(w', w'.threads[other]) {
      assert Warm(w, w.threads[other]);
    }
    forall id | id in w'.db ensures Earned(w', w'.cells[w'.db[id]]) {
      assert id in w.db ==> Earned(w, w.cells[w.db[id]]);
    }
  }

  /** An operation that ends may have sent a command. */
  lemma EndKeepsEarned(w: World, tid: Tid)
    requires Sane(w) && AllEarned(w) && tid in w.threads && w.threads[tid].step.After?
    ensures var next := WithThread(w, tid, w.threads[tid].(step := Over));
      && Sane(next) && AllEarned(next)
      && (w.threads[tid].stage.ToRunning? ==>
            var w' := next.(started := w.started + {w.cells[w.threads[tid].r].id}); Sane(w') && AllEarned(w'))
  {
    assert Warm(w, w.threads[tid]);
    MoveKeepsEarned(w, tid, w.threads[tid].(step := Over));
  }

  lemma ContinueKeepsEarned(c: Config, w: World, tid: Tid, ok: bool)
    requires Ordered(c, w) && AllEarned(w) && tid in w.threads && w.threads[tid].step.After?
    ensures Sane(Continued(w, tid, ok)) && AllEarned(Continued(w, tid, ok))
  {
    ContinueIsSane(w, tid, ok);
    var th := w.threads[tid];
    assert Warm(w, th);
    if th.stage.ToStarting? {
      CopyKeepsEarned(w, tid, ToRunning, w.cells[th.r]);
    } else if !ok && (th.stage.ToCreating? || th.stage.ToRunning? || th.stage.ToStopping?) {
      CopyKeepsEarned(w, tid, ToFailed, w.cells[th.r]);
    } else if th.stage.ToCreating? || th.stage.ToStopping? {
      MoveKeepsEarned(w, tid, Thread(if th.stage.ToCreating? then ToScheduled else ToCompleted, th.r, Guard));
    } else {
      EndKeepsEarned(w, tid);
    }
  }

  // ---------------------------------------------------------------- who marked them

  predicate PastMark(w: World, th: Thread) {
    (th.stage.ToScheduled? && ((w.shared && th.step.Publish?) || th.step.After?)) || th.step.Over?
  }

  predicate Creates(w: World, k: Ticket, id: Id) {
    k < |w.d.accepted| && w.d.accepted[k].id == id && Creatable(w.d.accepted[k])
  }

  /** If the task of a ticket can be created and is marked, its goroutine did it. */
  predicate MarkedItself(w: World, k: Ticket) {
    k < |w.d.accepted| && Creatable(w.d.accepted[k]) && w.d.accepted[k].id in w.marked ==>
      && (k in w.d.running || k in w.d.finished)
      && (Runner(k) in w.threads ==> PastMark(w, w.threads[Runner(k)]))
  }

  ghost predicate Accounted(w: World) {
    && DistinctIds(w.d.accepted)
    && (forall k: Ticket :: MarkedItself(w, k))
    && (forall id :: id in w.marked ==> exists k: Ticket :: Creates(w, k, id))
  }

  predicate NotSetBack(w: World, w': World, k: Ticket) {
    Runner(k) in w'.threads ==>
      Runner(k) in w.threads && (PastMark(w, w.threads[Runner(k)]) ==> PastMark(w', w'.threads[Runner(k)]))
  }

  /** Steps that mark nothing and do not set a marked task's goroutine back. */
  lemma QuietKeepsAccounts(w: World, w': World)
    requires Accounted(w) && w'.d == w.d && w'.marked == w.marked && w'.shared == w.shared
    requires forall k: Ticket :: NotSetBack(w, w', k)
    ensures Accounted(w')
  {
    forall k: Ticket ensures MarkedItself(w', k) {
      assert MarkedItself(w, k) && NotSetBack(w, w', k);
    }
    forall id | id in w'.marked ensures exists k: Ticket :: Creates(w', k, id) {
      var k: Ticket :| Creates(w, k, id);
      assert Creates(w', k, id);
    }
  }

  /** The step of a goroutine that marks its own task. */
  predicate MarksItsTask(w: World, w': World, k: Ticket) {
    && Runner(k) in w'.threads && PastMark(w', w'.threads[Runner(k)]) && k in w.d.running
    && k < |w.d.accepted| && Creatable(w.d.accepted[k]) && w'.marked == w.marked + {w.d.accepted[k].id}
  }

  lemma MarkKeepsAccounts(w: World, w': World, marker: Ticket)
    requires Accounted(w) && w'.d == w.d && w'.shared == w.shared && MarksItsTask(w, w', marker)
    requires forall k: Ticket :: k != marker ==> NotSetBack(w, w', k)
    ensures Accounted(w')
  {
    forall k: Ticket ensures MarkedItself(w', k) {
      assert MarkedItself(w, k) && (k != marker ==> NotSetBack(w, w', k));
    }
    forall id | id in w'.marked ensures exists k: Ticket :: Creates(w', k, id) {
      if id in w.marked {
        var k: Ticket :| Creates(w, k, id);
        assert Creates(w', k, id);
      } else {
        assert Creates(w', marker, id);
      }
    }
  }

  lemma AssignKeepsAccounts(c: Config, w: World, tid: Tid)
    requires Ordered(c, w) && Accounted(w) && tid in w.threads && w.threads[tid].step.Assign?
    ensures Accounted(Assigned(w, tid))
  {
    var w' := Assigned(w, tid);
    if w.threads[tid].stage.ToScheduled? && w.shared {
      assert Mine(w, tid, w.threads[tid]);
      MarkKeepsAccounts(w, w', tid.k);
    } else {
      QuietKeepsAccounts(w, w');
    }
  }

  lemma PublishKeepsAccounts(c: Config, w: World, tid: Tid)
    requires Ordered(c, w) && Accounted(w) && tid in w.threads && w.threads[tid].step.Publish?
    ensures Accounted(Published(w, tid))
  {
    var w' := Published(w, tid);
    if w.threads[tid].stage.ToScheduled? {
      assert Mine(w, tid, w.threads[tid]);
      MarkKeepsAccounts(w, w', tid.k);
    } else {
      QuietKeepsAccounts(w, w');
    }
  }

  lemma SubmitKeepsDistinct(accepted: seq<Task>, t: Task)
    requires DistinctIds(accepted)
    requires Creatable(t) ==> forall i :: 0 <= i < |accepted| && Creatable(accepted[i]) ==> accepted[i].id != t.id
    ensures DistinctIds(accepted + [t])
  {
  }

  lemma DispatchKeepsAccounts(c: Config, w: World, a: Action)
    requires Ordered(c, w) && Accounted(w) && CanHappen(c, w, Dispatching(a)) && Expected(w, Dispatching(a))
    ensures Accounted(Dispatched(c, w, a))
  {
    DispatchFrame(c, w.d, a);
    var w' := Dispatched(c, w, a);
    assert DistinctIds(w'.d.accepted) by {
      if a.Submit? {
        SubmitKeepsDistinct(w.d.accepted, Dispatcher.Identified(a.t, a.newId));
      }
    }
    forall id | id in w'.marked ensures exists k: Ticket :: Creates(w', k, id) {
      var k: Ticket :| Creates(w, k, id);
      assert Creates(w', k, id);
    }
    forall k: Ticket ensures MarkedItself(w', k) {
      DispatchKeepsMarks(c, w, a, k);
    }
  }

  /** A goroutine that ends stays past the mark; a submitted task is not marked, being new. */
  lemma DispatchKeepsMarks(c: Config, w: World, a: Action, k: Ticket)
    requires Ordered(c, w) && Accounted(w) && CanHappen(c, w, Dispatching(a)) && Expected(w, Dispatching(a))
    ensures MarkedItself(Dispatched(c, w, a), k)
  {
    DispatchFrame(c, w.d, a);
    assert MarkedItself(w, k);
    if k == |w.d.accepted| && a.Submit? {
      NewIsUnmarked(w, a.t, a.newId);
    }
  }

  lemma NewIsUnmarked(w: World, t: Task, newId: Id)
    requires Accounted(w) && Expected(w, Dispatching(Dispatcher.Submit(t, newId)))
    ensures Creatable(t) ==> Dispatcher.Identified(t, newId).id !in w.marked
  {
    if Creatable(t) {
      forall j: Ticket ensures !Creates(w, j, Dispatcher.Identified(t, newId).id) {
      }
    }
  }

  lemma CheckKeepsAccounts(c: Config, w: World, tid: Tid)
    requires Ordered(c, w) && Accounted(w) && tid in w.threads
    ensures w.threads[tid].step.Guard? ==> Accounted(Checked(w, tid))
    ensures w.threads[tid].step.Copy? ==> Accounted(Copied(w, tid))
  {
    if w.threads[tid].step.Guard? {
      QuietKeepsAccounts(w, Checked(w, tid));
    } else if w.threads[tid].step.Copy? {
      QuietKeepsAccounts(w, Copied(w, tid));
    }
  }

  /** A goroutine that goes on after a Put changes no mark and no other goroutine. */
  lemma ContinueFrame(w: World, tid: Tid, ok: bool)
    requires Sane(w) && tid in w.threads && w.threads[tid].step.After?
    requires w.threads[tid].stage.ToCreating? || w.threads[tid].stage.ToScheduled? ==> tid.Runner?
    ensures var w' := Continued(w, tid, ok);
      && w'.d == w.d && w'.marked == w.marked && w'.shared == w.shared && tid in w'.threads
      && w'.threads == w.threads[tid := w'.threads[tid]]
      && (PastMark(w, w.threads[tid]) ==> PastMark(w', w'.threads[tid]))
  {
  }

  lemma ContinueKeepsAccounts(c: Config, w: World, tid: Tid, ok: bool)
    requires Ordered(c, w) && Accounted(w) && tid in w.threads && w.threads[tid].step.After?
    ensures Accounted(Continued(w, tid, ok))
  {
    assert Mine(w, tid, w.threads[tid]);
    ContinueFrame(w, tid, ok);
    var w' := Continued(w, tid, ok);
    forall k: Ticket ensures NotSetBack(w, w', k) {
      assert Runner(k) in w'.threads ==> Runner(k) in w.threads;
    }
    QuietKeepsAccounts(w, w');
  }

  lemma CallKeepsAccounts(c: Config, w: World, n: nat, call: Call)
    requires Sane(w) && Accounted(w) && CanHappen(c, w, Begin(n, call))
    ensures Accounted(Called(w, n, call))
  {
    QuietKeepsAccounts(w, Called(w, n, call));
  }

  lemma StepKeepsAccounts(c: Config, w: World, e: Event)
    requires Ordered(c, w) && Accounted(w) && Possible(c, w, e) && Expected(w, e)
    ensures Accounted(Happen(c, w, e))
  {
    match e {
      case Dispatching(a) => DispatchKeepsAccounts(c, w, a);
      case Look(_) => QuietKeepsAccounts(w, Happen(c, w, e));
      case Begin(n, call) => CallKeepsAccounts(c, w, n, call);
      case Go(tid) =>
        match w.threads[tid].step {
          case Assign(_) => AssignKeepsAccounts(c, w, tid);
          case Publish(_) => PublishKeepsAccounts(c, w, tid);
          case _ => CheckKeepsAccounts(c, w, tid);
        }
      case Continue(tid, ok) => ContinueKeepsAccounts(c, w, tid, ok);
    }
  }

  // ---------------------------------------------------------------- ownership

  predicate StoredAsCreating(w: World, id: Id) {
    id in w.db && w.db[id] < |w.cells| && w.cells[w.db[id]].state == Creating
  }

  /** Between the first Put of createContainer and the next write that the store shows. */
  predicate Holding(w: World, th: Thread, id: Id) {
    id in w.db && th.r < |w.cells| &&
    (|| (th.stage.ToCreating? && th.step.After? && (w.shared ==> th.r == w.db[id]))
     || (th.stage.ToScheduled? && (th.step.Guard? || th.step.Assign?) && (w.shared ==> th.r == w.db[id]))
     || (th.stage.ToScheduled? && th.step.Publish? && !w.shared)
     || (th.stage.ToFailed? &&
         ((th.step.Guard? && w.cells[th.r].state == Creating) || th.step.Assign? || th.step.Publish?)))
  }

  /** Goroutine `k` holds its slot for task `id`, which it is creating. */
  predicate Owns(w: World, k: Ticket, id: Id) {
    && k in w.d.running && k < |w.d.accepted| && w.d.accepted[k].id == id
    && Runner(k) in w.threads && Holding(w, w.threads[Runner(k)], id)
  }

  ghost predicate Owned(w: World) {
    forall id :: StoredAsCreating(w, id) ==> exists k: Ticket :: Owns(w, k, id)
  }

  ghost predicate Kept(c: Config, w: World) {
    Ordered(c, w) && AllEarned(w) && Accounted(w) && Owned(w)
  }

  lemma OwnedIsUnmarked(w: World, k: Ticket, id: Id)
    requires Owns(w, k, id) && MarkedItself(w, k) && Mine(w, Runner(k), w.threads[Runner(k)])
    ensures id !in w.marked
  {
  }

  /** A marked task is not stored as Creating any more. */
  lemma MarkedIsPastCreating(c: Config, w: World, id: Id)
    requires Ordered(c, w) && Accounted(w) && Owned(w) && id in w.marked
    ensures !StoredAsCreating(w, id)
  {
    if StoredAsCreating(w, id) {
      var k: Ticket :| Owns(w, k, id);
      OwnedIsUnmarked(w, k, id);
    }
  }

  lemma CallKeepsEarned(c: Config, w: World, n: nat, call: Call)
    requires Kept(c, w) && CanHappen(c, w, Begin(n, call)) && Expected(w, Begin(n, call))
    ensures Sane(Called(w, n, call)) && AllEarned(Called(w, n, call))
  {
    CallIsSane(w, n, call);
    if Fetches(call) {
      assert Earned(w, w.cells[w.db[call.id]]);
      if call.Update? {
        MarkedIsPastCreating(c, w, call.id);
      }
      FetchKeepsEarned(w, Caller(n), FirstStage(call), call.id);
    } else {
      CopyKeepsEarned(w, Caller(n), FirstStage(call), call.t);
    }
  }

  lemma DispatchKeepsEarned(c: Config, w: World, a: Action)
    requires Ordered(c, w) && AllEarned(w) && CanHappen(c, w, Dispatching(a))
    ensures Sane(Dispatched(c, w, a)) && AllEarned(Dispatched(c, w, a))
  {
    DispatchIsSane(c, w, a);
    var w' := Dispatched(c, w, a);
    forall tid | tid in w'.threads ensures Warm(w', w'.threads[tid]) {
      assert tid in w.threads ==> Warm(w, w.threads[tid]);
    }
  }

  lemma StepKeepsEarned(c: Config, w: World, e: Event)
    requires Kept(c, w) && Possible(c, w, e) && Expected(w, e)
    ensures Sane(Happen(c, w, e)) && AllEarned(Happen(c, w, e))
  {
    match e {
      case Dispatching(a) => DispatchKeepsEarned(c, w, a);
      case Look(_) =>
      case Begin(n, call) => CallKeepsEarned(c, w, n, call);
      case Go(tid) =>
        match w.threads[tid].step {
          case Guard => CheckKeepsEarned(c, w, tid);
          case Copy => CopyStepKeepsEarned(c, w, tid);
          case Assign(_) => AssignKeepsEarned(c, w, tid);
          case _ => PublishKeepsEarned(c, w, tid);
        }
      case Continue(tid, ok) => ContinueKeepsEarned(c, w, tid, ok);
    }
  }

  // ---------------------------------------------------------------- every step keeps the owners

  /** Steps that store nothing as Creating and leave the owners of what is. */
  lemma OwnersStay(w: World, w': World)
    requires Owned(w)
    requires forall id :: StoredAsCreating(w', id) ==>
      StoredAsCreating(w, id) && forall k: Ticket :: Owns(w, k, id) ==> Owns(w', k, id)
    ensures Owned(w')
  {
    forall id | StoredAsCreating(w', id) ensures exists k: Ticket :: Owns(w', k, id) {
      var k: Ticket :| Owns(w, k, id);
      assert Owns(w', k, id);
    }
  }

  lemma MoveKeepsOwned(w: World, tid: Tid, th: Thread)
    requires Owned(w) && tid in w.threads
    requires forall id :: StoredAsCreating(w, id) && Holding(w, w.threads[tid], id) ==> Holding(w, th, id)
    ensures Owned(WithThread(w, tid, th))
  {
    OwnersStay(w, WithThread(w, tid, th));
  }

  lemma CopyKeepsOwned(w: World, tid: Tid, stage: Stage, t: Cell)
    requires Owned(w) && (forall id :: id in w.db ==> w.db[id] < |w.cells|)
    requires forall other :: other in w.threads ==> w.threads[other].r < |w.cells|
    requires forall id :: StoredAsCreating(w, id) && tid in w.threads && Holding(w, w.threads[tid], id) ==>
      stage.ToFailed? && t.state == Creating
    ensures Owned(OnCopy(w, tid, stage, t))
  {
    OwnersStay(w, OnCopy(w, tid, stage, t));
  }

  /** Whoever holds a task that is stored as Creating passes the check. */
  lemma CheckKeepsHolding(c: Config, w: World, tid: Tid, id: Id)
    requires Ordered(c, w) && tid in w.threads && w.threads[tid].step.Guard?
    requires StoredAsCreating(w, id) && Holding(w, w.threads[tid], id)
    ensures Holding(w, Check(w.threads[tid], w.cells[w.threads[tid].r].state), id)
  {
    assert Mine(w, tid, w.threads[tid]);
  }

  lemma CheckKeepsOwned(c: Config, w: World, tid: Tid)
    requires Ordered(c, w) && Owned(w) && tid in w.threads && w.threads[tid].step.Guard?
    ensures Owned(Checked(w, tid))
  {
    var next := Check(w.threads[tid], w.cells[w.threads[tid].r].state);
    forall id | StoredAsCreating(w, id) && Holding(w, w.threads[tid], id) ensures Holding(w, next, id) {
      CheckKeepsHolding(c, w, tid, id);
    }
    MoveKeepsOwned(w, tid, next);
  }

  lemma CopyStepKeepsOwned(c: Config, w: World, tid: Tid)
    requires Ordered(c, w) && Owned(w) && tid in w.threads && w.threads[tid].step.Copy?
    ensures Owned(Copied(w, tid))
  {
    CopyKeepsOwned(w, tid, w.threads[tid].stage, w.cells[w.threads[tid].r]);
  }

  lemma AssignKeepsOwned(c: Config, w: World, tid: Tid)
    requires Ordered(c, w) && Owned(w) && tid in w.threads && w.threads[tid].step.Assign?
    ensures Owned(Assigned(w, tid))
  {
    var w', th := Assigned(w, tid), w.threads[tid];
    assert Mine(w, tid, th);
    assert Hidden(w, th) ==> Exclusive(w, tid);
    forall id, k: Ticket | StoredAsCreating(w', id) && Owns(w, k, id) ensures Owns(w', k, id) {
      assert Hidden(w, w.threads[Runner(k)]) ==> Exclusive(w, Runner(k));
    }
    OwnersStay(w, w');
  }

  lemma PublishKeepsOwned(c: Config, w: World, tid: Tid)
    requires Kept(c, w) && tid in w.threads && w.threads[tid].step.Publish?
    ensures Owned(Published(w, tid))
  {
    var w', th := Published(w, tid), w.threads[tid];
    var t := w.cells[th.r];
    assert Mine(w, tid, th) && Warm(w, th);
    forall id | StoredAsCreating(w', id) ensures exists k: Ticket :: Owns(w', k, id) {
      if id == t.id {
        assert Owns(w', tid.k, id);
      } else {
        assert StoredAsCreating(w, id);
        var k: Ticket :| Owns(w, k, id);
        assert Mine(w, Runner(k), w.threads[Runner(k)]);
        assert Owns(w', k, id);
      }
    }
  }

  lemma ContinueKeepsOwned(c: Config, w: World, tid: Tid, ok: bool)
    requires Ordered(c, w) && Owned(w) && tid in w.threads && w.threads[tid].step.After?
    ensures Owned(Continued(w, tid, ok))
  {
    var th := w.threads[tid];
    if th.stage.ToStarting? {
      CopyKeepsOwned(w, tid, ToRunning, w.cells[th.r]);
    } else if !ok && (th.stage.ToCreating? || th.stage.ToRunning? || th.stage.ToStopping?) {
      CopyKeepsOwned(w, tid, ToFailed, w.cells[th.r]);
    } else if th.stage.ToCreating? || th.stage.ToStopping? {
      MoveKeepsOwned(w, tid, Thread(if th.stage.ToCreating? then ToScheduled else ToCompleted, th.r, Guard));
    } else {
      MoveKeepsOwned(w, tid, th.(step := Over));
      OwnersStay(WithThread(w, tid, th.(step := Over)), Continued(w, tid, ok));
    }
  }

  lemma CallKeepsOwned(c: Config, w: World, n: nat, call: Call)
    requires Ordered(c, w) && Owned(w) && CanHappen(c, w, Begin(n, call))
    ensures Owned(Called(w, n, call))
  {
    OwnersStay(w, Called(w, n, call));
  }

  lemma LaunchKeepsOwned(c: Config, w: World)
    requires Ordered(c, w) && Owned(w) && CanHappen(c, w, Dispatching(Dispatcher.Launch))
    ensures Owned(Dispatched(c, w, Dispatcher.Launch))
  {
    DispatchFrame(c, w.d, Dispatcher.Launch);
    var w' := w.(d := Dispatcher.Apply(c, w.d, Dispatcher.Launch));
    var t := w.d.accepted[w.d.phase.k];
    assert Runner(w.d.phase.k) !in w.threads;
    OwnersStay(w, w');
    CopyKeepsOwned(w', Runner(w.d.phase.k), ToCreating, Cell(t.id, t.state));
  }

  /** Only a goroutine that is done with its task releases its slot. */
  lemma OwnerStays(c: Config, w: World, a: Action, k: Ticket, id: Id)
    requires Ordered(c, w) && Owns(w, k, id) && CanHappen(c, w, Dispatching(a)) && !a.Launch?
    ensures Owns(Dispatched(c, w, a), k, id)
  {
    DispatchFrame(c, w.d, a);
    assert a != Dispatcher.Release(k);
  }

  lemma DispatchKeepsOwned(c: Config, w: World, a: Action)
    requires Ordered(c, w) && Owned(w) && CanHappen(c, w, Dispatching(a))
    ensures Owned(Dispatched(c, w, a))
  {
    if a.Launch? {
      LaunchKeepsOwned(c, w);
    } else {
      var w' := Dispatched(c, w, a);
      forall id, k: Ticket | Owns(w, k, id) ensures Owns(w', k, id) {
        OwnerStays(c, w, a, k, id);
      }
      OwnersStay(w, w');
    }
  }

  lemma StepKeepsOwned(c: Config, w: World, e: Event)
    requires Kept(c, w) && Possible(c, w, e)
    ensures Owned(Happen(c, w, e))
  {
    match e {
      case Dispatching(a) => DispatchKeepsOwned(c, w, a);
      case Look(_) => OwnersStay(w, Happen(c, w, e));
      case Begin(n, call) => CallKeepsOwned(c, w, n, call);
      case Go(tid) =>
        match w.threads[tid].step {
          case Guard => CheckKeepsOwned(c, w, tid);
          case Copy => CopyStepKeepsOwned(c, w, tid);
          case Assign(_) => AssignKeepsOwned(c, w, tid);
          case _ => PublishKeepsOwned(c, w, tid);
        }
      case Continue(tid, ok) => ContinueKeepsOwned(c, w, tid, ok);
    }
  }

  /** Every step, of whatever goroutine or caller, keeps all of it. */
  lemma StepKeepsAll(c: Config, w: World, e: Event)
    requires Kept(c, w) && Possible(c, w, e) && Expected(w, e)
    ensures Kept(c, Happen(c, w, e))
  {
    StepKeepsOrder(c, w, e);
    StepKeepsEarned(c, w, e);
    StepKeepsAccounts(c, w, e);
    StepKeepsOwned(c, w, e);
  }

  // ---------------------------------------------------------------- runs

  lemma {:induction false} RunKeepsAll(c: Config, w: World, es: seq<Event>)
    requires Kept(c, w) && ValidRun(c, w, es) && ExpectedRun(c, w, es)
    ensures Kept(c, Run(c, w, es))
    decreases |es|
  {
    if es != [] {
      StepKeepsAll(c, w, es[0]);
      RunKeepsAll(c, Happen(c, w, es[0]), es[1..]);
    }
  }

  ghost function CreatingIds(w: World): set<Id> {
    set id | id in w.db && StoredAsCreating(w, id)
  }

  /** Each stored Creating task has its own goroutine among `ks`, so there are no more of them. */
  lemma {:induction false} OwnersBound(w: World, ids: set<Id>, ks: set<Ticket>)
    requires forall id :: id in ids ==> exists k :: k in ks && Owns(w, k, id)
    ensures |ids| <= |ks|
    decreases |ids|
  {
    if ids != {} {
      var id :| id in ids;
      var k :| k in ks && Owns(w, k, id);
      forall other | other in ids - {id} ensures exists j :: j in ks - {k} && Owns(w, j, other) {
        var j :| j in ks && Owns(w, j, other);
        assert j in ks - {k};
      }
      OwnersBound(w, ids - {id}, ks - {k});
    }
  }

  lemma OwnerCreates(c: Config, w: World, k: Ticket, id: Id)
    requires Ordered(c, w) && Owns(w, k, id)
    ensures Creates(w, k, id)
  {
    assert Mine(w, Runner(k), w.threads[Runner(k)]);
  }

  lemma OneOwner(c: Config, w: World, j: Ticket, k: Ticket, id: Id)
    requires Ordered(c, w) && DistinctIds(w.d.accepted) && Owns(w, j, id) && Owns(w, k, id)
    ensures j == k
  {
    OwnerCreates(c, w, j, id);
    OwnerCreates(c, w, k, id);
  }

  /** In every interleaving, over either store, a task stored as Creating is owned by exactly one goroutine
      that still holds its slot; so the tasks stored as Creating never outnumber the counted slots nor the
      limit. */
  lemma CreatingTasksHoldSlots(c: Config, shared: bool, es: seq<Event>)
    requires ValidRun(c, InitialWorld(shared), es) && ExpectedRun(c, InitialWorld(shared), es)
    ensures var w := Run(c, InitialWorld(shared), es);
      && (forall id :: StoredAsCreating(w, id) ==> exists k: Ticket :: Owns(w, k, id))
      && (forall id, j: Ticket, k: Ticket :: Owns(w, j, id) && Owns(w, k, id) ==> j == k)
      && |CreatingIds(w)| <= w.d.currentRunning <= (if c.maxConcurrent < 0 then 0 else c.maxConcurrent)
  {
    RunKeepsAll(c, InitialWorld(shared), es);
    var w := Run(c, InitialWorld(shared), es);
    OwnersBound(w, CreatingIds(w), w.d.running);
    forall id, j: Ticket, k: Ticket | Owns(w, j, id) && Owns(w, k, id) ensures j == k {
      OneOwner(c, w, j, k, id);
    }
  }

  /** A pointer that RegisterWorker or updateTaskStatus has fetched never leads to a task in Creating, whenever it
      is written or put back. */
  lemma FetchedIsPastCreating(c: Config, shared: bool, es: seq<Event>, tid: Tid)
    requires ValidRun(c, InitialWorld(shared), es) && ExpectedRun(c, InitialWorld(shared), es)
    ensures var w := Run(c, InitialWorld(shared), es);
      tid in w.threads && (w.threads[tid].stage.ToStarting? || w.threads[tid].stage.Follow?) ==>
        w.threads[tid].r < |w.cells| && w.cells[w.threads[tid].r].state != Creating
  {
    RunKeepsAll(c, InitialWorld(shared), es);
    var w := Run(c, InitialWorld(shared), es);
    assert tid in w.threads ==> Warm(w, w.threads[tid]);
  }
}
