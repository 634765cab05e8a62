/** What becomes of tasks that the manager restarts. */
module Restarts {
  import opened TaskState
  import opened Tasks
  import opened Goroutines
  import opened SlotOwnership
  import Dispatcher
  import ManagerModel
  import ManagerRuns

  /** The goroutine stands at the first check of createContainer or is done with it, and what it was handed is as
      it was, stored under no key and out of reach for everyone else. */
  ghost predicate Barred(w: World, k: Ticket) {
    Runner(k) in w.threads && k < |w.d.accepted| &&
    var th, t := w.threads[Runner(k)], w.d.accepted[k];
    && th.stage.ToCreating? && (th.step.Guard? || th.step.Over?)
    && th.r < |w.cells| && w.cells[th.r] == Cell(t.id, t.state) && Exclusive(w, Runner(k))
  }

  lemma InitialOrder(c: Config, shared: bool)
    ensures Ordered(c, InitialWorld(shared))
  {
    assert forall k: Ticket :: Dispatcher.ConservedAt(Dispatcher.INITIAL, k);
  }

  /** In every interleaving, over either store, whatever ids are submitted again: the goroutine of a task that
      cannot go to Creating never gets past its first check, and never stores its variable. */
  lemma BarredTasksAreNeverCreated(c: Config, shared: bool, es: seq<Event>, k: Ticket)
    requires ValidRun(c, InitialWorld(shared), es)
    ensures var w := Run(c, InitialWorld(shared), es);
      Runner(k) in w.threads && k < |w.d.accepted| && !ValidStateTransition(w.d.accepted[k].state, Creating) ==>
        Barred(w, k)
  {
    InitialOrder(c, shared);
    RunKeepsOrder(c, InitialWorld(shared), es);
    var w := Run(c, InitialWorld(shared), es);
    if Runner(k) in w.threads {
      assert Mine(w, Runner(k), w.threads[Runner(k)]);
    }
  }

  /** So it goes with every task that a health check restarts, each time it does: the worker accepts it, gives it a
      slot, and never creates a container for it, whatever else happens on the worker. */
  lemma RestartedTasksNeverRun(
      m: ManagerModel.Manager, e: ManagerModel.Step, n: Id, newId: Id,
      c: Config, shared: bool, es: seq<Event>, k: Ticket)
    requires ManagerRuns.Restarts(m, e, n) && ValidRun(c, InitialWorld(shared), es)
    requires var w := Run(c, InitialWorld(shared), es);
      k < |w.d.accepted| &&
      w.d.accepted[k] == Dispatcher.Identified(ManagerModel.Restarted(m.taskDb.cells[n]), newId)
    ensures Dispatcher.Admitted(ManagerModel.Restarted(m.taskDb.cells[n]))
    ensures var w := Run(c, InitialWorld(shared), es); Runner(k) in w.threads ==> Barred(w, k)
  {
    BarredTasksAreNeverCreated(c, shared, es, k);
  }
}
