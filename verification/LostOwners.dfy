/** How a task that is being created loses the goroutine that creates it, if callers do not do what is expected. */
module LostOwners {
  import opened TaskState
  import opened Tasks
  import opened Goroutines
  import opened SlotOwnership
  import opened Interleaving
  import Dispatcher

  /** The dispatcher waits, all slots are free, and there is at least one. */
  ghost predicate Idle(c: Config, w: World) {
    && Sane(w) && Dispatcher.Inv(c, w.d)
    && w.d.phase == Dispatcher.Selecting && w.d.buffer == [] && w.d.running == {} && c.maxConcurrent >= 1
  }

  /** A dispatcher step, added in front. */
  lemma DispatchFirst(c: Config, w: World, a: Dispatcher.Action, es: seq<Event>)
    requires Sane(w) && CanHappen(c, w, Dispatching(a)) && ValidRun(c, Dispatched(c, w, a), es)
    ensures Sane(Dispatched(c, w, a))
    ensures ValidRun(c, w, [Dispatching(a)] + es)
    ensures Run(c, w, [Dispatching(a)] + es) == Run(c, Dispatched(c, w, a), es)
  {
    DispatchIsSane(c, w, a);
    Prepend(c, w, Dispatching(a), es);
  }

  /** A submitted task meets the waiting dispatcher. */
  lemma Handed(c: Config, w: World, t: Task) returns (es: seq<Event>)
    requires Idle(c, w) && Creatable(t) && t.id != NIL_ID
    ensures ValidRun(c, w, es)
    ensures var w', k := Run(c, w, es), |w.d.accepted|;
      && Sane(w') && w' == w.(d := w'.d)
      && w'.d == w.d.(accepted := w.d.accepted + [t], blocked := w'.d.blocked, phase := Dispatcher.Received(k))
  {
    var submit, handoff := Dispatcher.Submit(t, t.id), Dispatcher.Handoff(|w.d.accepted|, false);
    DispatchIsSane(c, w, submit);
    DispatchFirst(c, Dispatched(c, w, submit), handoff, []);
    DispatchFirst(c, w, submit, [Dispatching(handoff)] + []);
    es := [Dispatching(submit)] + ([Dispatching(handoff)] + []);
  }

  /** A submitted task gets its slot at once. */
  lemma Launched(c: Config, w: World, t: Task) returns (es: seq<Event>)
    requires Idle(c, w) && Creatable(t) && t.id != NIL_ID
    ensures ValidRun(c, w, es)
    ensures var w', k := Run(c, w, es), |w.d.accepted|;
      && Sane(w') && w' == w.(d := w'.d, cells := w.cells + [Cell(t.id, t.state)],
                              threads := w.threads[Runner(k) := Thread(ToCreating, |w.cells|, Guard)])
      && w'.d.running == {k}
  {
    var first := Handed(c, w, t);
    var w1 := Run(c, w, first);
    DispatchIsSane(c, w1, Dispatcher.Check);
    DispatchFirst(c, Dispatched(c, w1, Dispatcher.Check), Dispatcher.Launch, []);
    DispatchFirst(c, w1, Dispatcher.Check, [Dispatching(Dispatcher.Launch)] + []);
    var second := [Dispatching(Dispatcher.Check)] + ([Dispatching(Dispatcher.Launch)] + []);
    Concat(c, w, first, second);
    es := first + second;
  }

  /** An output arrives, and updateTaskStatus is about to put the Creating task back as it is. */
  lemma OutputFetches(c: Config, w: World, id: Id, n: nat) returns (es: seq<Event>, r: Ref)
    requires Sane(w) && StoredAsCreating(w, id) && id in w.started && Caller(n) !in w.threads
    ensures ValidRun(c, w, es)
    ensures var w' := Run(c, w, es);
      && Sane(w') && w'.d == w.d
      && |w.cells| <= |w'.cells| && (forall i :: 0 <= i < |w.cells| ==> w'.cells[i] == w.cells[i])
      && w'.threads == w.threads[Caller(n) := Thread(Follow(Running), r, Publish(Creating))]
      && r < |w'.cells| && w'.cells[r] == Cell(id, Creating)
  {
    var e, f := Begin(n, Update(id, Running)), Go(Caller(n));
    StepIsSane(c, w, e);
    var w1 := Happen(c, w, e);
    r := w1.threads[Caller(n)].r;
    StepIsSane(c, w1, f);
    Prepend(c, w1, f, []);
    Prepend(c, w, e, [f] + []);
    es := [e] + ([f] + []);
  }

  /** A goroutine that has put its task as Failed ends. */
  lemma Ends(c: Config, w: World, k: Ticket) returns (es: seq<Event>)
    requires Sane(w) && w.d.running == {k}
    requires w.threads[Runner(k)].stage.ToFailed? && w.threads[Runner(k)].step.After?
    ensures ValidRun(c, w, es)
    ensures var w' := Run(c, w, es);
      && Sane(w') && w'.d.running == {} && w'.threads == w.threads - {Runner(k)}
      && w'.cells == w.cells
  {
    var tid, e := Runner(k), Continue(Runner(k), false);
    StepIsSane(c, w, e);
    var w1 := Happen(c, w, e);
    assert w1 == WithThread(w, tid, w.threads[tid].(step := Over));
    DispatchFirst(c, w1, Dispatcher.Release(k), []);
    es := [e] + ([Dispatching(Dispatcher.Release(k))] + []);
    Prepend(c, w, e, [Dispatching(Dispatcher.Release(k))] + []);
  }

  /** The creation fails, and its goroutine releases the slot. */
  lemma CreationFails(c: Config, w: World, k: Ticket) returns (es: seq<Event>)
    requires Sane(w) && w.d.running == {k}
    requires w.threads[Runner(k)].stage.ToCreating? && w.threads[Runner(k)].step.After?
    requires w.cells[w.threads[Runner(k)].r].state == Creating
    ensures ValidRun(c, w, es)
    ensures var w' := Run(c, w, es);
      && Sane(w') && w'.d.running == {} && w'.threads == w.threads - {Runner(k)}
      && |w.cells| <= |w'.cells| && forall r :: 0 <= r < |w.cells| ==> w'.cells[r] == w.cells[r]
  {
    var tid, e := Runner(k), Continue(Runner(k), false);
    StepIsSane(c, w, e);
    var w1 := Happen(c, w, e);
    assert w1 == OnCopy(w, tid, ToFailed, w.cells[w.threads[tid].r]);
    var fail := PassesAndStores(c, w1, tid);
    var last := Ends(c, Run(c, w1, fail), k);
    Concat(c, w1, fail, last);
    Prepend(c, w, e, fail + last);
    es := [e] + (fail + last);
  }

  /** The output that was fetched in time is put back too late. */
  lemma PutBackLate(c: Config, w: World, r: Ref, n: nat)
    requires Sane(w) && Caller(n) in w.threads
    requires w.threads[Caller(n)] == Thread(Follow(Running), r, Publish(Creating)) && w.cells[r].state == Creating
    ensures ValidRun(c, w, [Go(Caller(n))])
    ensures Run(c, w, [Go(Caller(n))]) == Published(w, Caller(n))
    ensures StoredAsCreating(Published(w, Caller(n)), w.cells[r].id)
  {
    StepIsSane(c, w, Go(Caller(n)));
    Prepend(c, w, Go(Caller(n)), []);
    assert [Go(Caller(n))] + [] == [Go(Caller(n))];
  }

  /** Why a task needs an id of its own: wherever outputs can still arrive for an id, submitting a task with that
      id to an idle worker can leave it stored as Creating while no goroutine runs at all. */
  lemma ReusedIdLosesItsOwner(c: Config, w: World, t: Task, n: nat) returns (es: seq<Event>)
    requires Idle(c, w) && Creatable(t) && t.id != NIL_ID && t.id in w.started && Caller(n) !in w.threads
    ensures ValidRun(c, w, es)
    ensures var w' := Run(c, w, es);
      StoredAsCreating(w', t.id) && w'.d.running == {} && forall k: Ticket :: !Owns(w', k, t.id)
  {
    var k := |w.d.accepted|;
    var launch := Launched(c, w, t);
    var w1 := Run(c, w, launch);
    var create := PassesAndStores(c, w1, Runner(k));
    var w2 := Run(c, w1, create);
    assert StoredAsCreating(w2, t.id);
    var fetch, r := OutputFetches(c, w2, t.id, n);
    var w3 := Run(c, w2, fetch);
    var fail := CreationFails(c, w3, k);
    var w4 := Run(c, w3, fail);
    PutBackLate(c, w4, r, n);
    Concat(c, w3, fail, [Go(Caller(n))]);
    Concat(c, w2, fetch, fail + [Go(Caller(n))]);
    Concat(c, w1, create, fetch + (fail + [Go(Caller(n))]));
    Concat(c, w, launch, create + (fetch + (fail + [Go(Caller(n))])));
    es := launch + (create + (fetch + (fail + [Go(Caller(n))])));
  }

  /** A StartTask on a task that its caller made up, before any other step. */
  lemma StartsMadeUp(c: Config, shared: bool, id: Id) returns (es: seq<Event>)
    ensures ValidRun(c, InitialWorld(shared), es)
    ensures var w' := Run(c, InitialWorld(shared), es);
      Sane(w') && w'.d == Dispatcher.INITIAL && id in w'.started && Caller(1) !in w'.threads
  {
    var w, e, f := InitialWorld(shared), Begin(0, Start(Cell(id, Starting))), Continue(Caller(0), true);
    StepIsSane(c, w, e);
    var w1 := Happen(c, w, e);
    var start := PassesAndStores(c, w1, Caller(0));
    var w2 := Run(c, w1, start);
    StepIsSane(c, w2, f);
    Prepend(c, w2, f, []);
    Concat(c, w1, start, [f] + []);
    Prepend(c, w, e, start + ([f] + []));
    es := [e] + (start + ([f] + []));
  }

  /** Why StartTask needs a task that the store has shown: with one that its caller made up, the very first task
      that is submitted can come to that. */
  lemma MadeUpStartLosesTheOwner(c: Config, shared: bool, t: Task) returns (es: seq<Event>)
    requires c.maxConcurrent >= 1 && Creatable(t) && t.id != NIL_ID
    ensures ValidRun(c, InitialWorld(shared), es)
    ensures var w' := Run(c, InitialWorld(shared), es);
      StoredAsCreating(w', t.id) && w'.d.running == {} && forall k: Ticket :: !Owns(w', k, t.id)
  {
    var start := StartsMadeUp(c, shared, t.id);
    var w := Run(c, InitialWorld(shared), start);
    assert forall k: Ticket :: Dispatcher.ConservedAt(Dispatcher.INITIAL, k);
    var rest := ReusedIdLosesItsOwner(c, w, t, 1);
    Concat(c, InitialWorld(shared), start, rest);
    es := start + rest;
  }
}
