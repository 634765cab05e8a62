/** How the worker's operations end, whatever goes on beside them. */
module Endings {
  import opened TaskState
  import opened Goroutines
  import Dispatcher

  type Config = Dispatcher.Config

  /** How many moves the operation has left, at most. */
  function Left(th: Thread): nat {
    if th.step.Over? then 0 else
      (match th.stage
       case Found(_) => 9
       case ToStarting => 8
       case ToRunning => 4
       case ToCreating => 6
       case ToStopping => 6
       case ToScheduled => 2
       case ToCompleted => 2
       case _ => 0) +
      match th.step
      case Copy => 5
      case Guard => 4
      case Assign(_) => 3
      case Publish(_) => 2
      case _ => 1
  }

  /** No operation ever waits for another one ... */
  lemma NeverWaits(c: Config, w: World, tid: Tid)
    requires Sane(w) && tid in w.threads && !w.threads[tid].step.Over?
    ensures Possible(c, w, Go(tid)) || forall ok :: Possible(c, w, Continue(tid, ok))
  {
  }

  /** ... every move of its own takes it closer to its end ... */
  lemma GoGetsCloser(c: Config, w: World, tid: Tid)
    requires Possible(c, w, Go(tid))
    ensures var w' := Happen(c, w, Go(tid)); tid in w'.threads && Left(w'.threads[tid]) < Left(w.threads[tid])
  {
  }

  lemma ContinueGetsCloser(c: Config, w: World, tid: Tid, ok: bool)
    requires Possible(c, w, Continue(tid, ok))
    ensures var w' := Happen(c, w, Continue(tid, ok));
      tid in w'.threads && Left(w'.threads[tid]) < Left(w.threads[tid])
  {
  }

  /** ... and what others do leaves it where it is. */
  lemma OthersLeaveIt(c: Config, w: World, e: Event, tid: Tid)
    requires Possible(c, w, e) && !IsMove(e, tid) && tid in w.threads && Dispatcher.Inv(c, w.d)
    ensures var w' := Happen(c, w, e);
      if tid in w'.threads then w'.threads[tid] == w.threads[tid] else Released(w', tid)
  {
    if e.Dispatching? && e.a.Launch? {
      assert Dispatcher.ConservedAt(w.d, w.d.phase.k);
    }
  }

  /** Its slot is free again. */
  predicate Released(w: World, tid: Tid) {
    tid.Runner? && tid.k in w.d.finished
  }

  predicate IsMove(e: Event, tid: Tid) {
    (e.Go? || e.Continue?) && e.tid == tid
  }

  lemma StaysReleased(c: Config, w: World, e: Event, tid: Tid)
    requires Possible(c, w, e) && Released(w, tid) && Dispatcher.Inv(c, w.d)
    ensures !IsMove(e, tid) && Released(Happen(c, w, e), tid)
  {
    assert Dispatcher.ConservedAt(w.d, tid.k);
    RefinesDispatcher(c, w, e);
  }

  function Moves(es: seq<Event>, tid: Tid): nat {
    if es == [] then 0 else (if IsMove(es[0], tid) then 1 else 0) + Moves(es[1..], tid)
  }

  lemma {:induction false} NoMoreMoves(c: Config, w: World, es: seq<Event>, tid: Tid)
    requires ValidRun(c, w, es) && Released(w, tid) && Dispatcher.Inv(c, w.d)
    ensures Moves(es, tid) == 0
    decreases |es|
  {
    if es != [] {
      StaysReleased(c, w, es[0], tid);
      StepKeepsDispatch(c, w, es[0]);
      NoMoreMoves(c, Happen(c, w, es[0]), es[1..], tid);
    }
  }

  lemma StepKeepsDispatch(c: Config, w: World, e: Event)
    requires Possible(c, w, e) && Dispatcher.Inv(c, w.d)
    ensures Dispatcher.Inv(c, Happen(c, w, e).d)
  {
    RefinesDispatcher(c, w, e);
    if e.Dispatching? {
      Dispatcher.StepKeepsInv(c, w.d, e.a);
    }
  }

  lemma {:induction false} EndsWithin(c: Config, w: World, es: seq<Event>, tid: Tid)
    requires ValidRun(c, w, es) && tid in w.threads && Dispatcher.Inv(c, w.d)
    ensures Moves(es, tid) <= Left(w.threads[tid])
    decreases |es|
  {
    if es != [] {
      var w', rest := Happen(c, w, es[0]), es[1..];
      StepKeepsDispatch(c, w, es[0]);
      if es[0] == Go(tid) {
        GoGetsCloser(c, w, tid);
      } else if IsMove(es[0], tid) {
        ContinueGetsCloser(c, w, tid, es[0].ok);
      } else {
        OthersLeaveIt(c, w, es[0], tid);
      }
      if tid in w'.threads {
        EndsWithin(c, w', rest, tid);
      } else {
        NoMoreMoves(c, w', rest, tid);
      }
    }
  }

  lemma {:induction false} RunKeepsDispatch(c: Config, w: World, es: seq<Event>)
    requires ValidRun(c, w, es) && Dispatcher.Inv(c, w.d)
    ensures Dispatcher.Inv(c, Run(c, w, es).d)
    decreases |es|
  {
    if es != [] {
      StepKeepsDispatch(c, w, es[0]);
      RunKeepsDispatch(c, Happen(c, w, es[0]), es[1..]);
    }
  }

  /** The step begins operation `tid`. */
  predicate Begins(w: World, e: Event, tid: Tid) {
    if e.Begin? then tid == Caller(e.n)
    else e == Dispatching(Dispatcher.Launch) && w.d.phase.Granted? && tid == Runner(w.d.phase.k)
  }

  /** The moves that the operation needs at most. */
  function Length(e: Event): nat {
    if !e.Begin? then 10
    else match e.call
      case Register(_, _) => 13
      case Start(_) => 8
      case Stop(_) => 10
      case _ => 4
  }

  lemma BeginsWithLength(c: Config, w: World, e: Event, tid: Tid)
    requires Possible(c, w, e) && Begins(w, e, tid)
    ensures tid in Happen(c, w, e).threads && Left(Happen(c, w, e).threads[tid]) == Length(e)
  {
  }

  /** Every operation ends within so many moves of its own, whatever the others do in between, whatever sandbox and
      client say, and over either store. */
  lemma EveryOperationEnds(c: Config, shared: bool, before: seq<Event>, e: Event, es: seq<Event>, tid: Tid)
    requires ValidRun(c, InitialWorld(shared), before)
    requires var w := Run(c, InitialWorld(shared), before);
      Possible(c, w, e) && Begins(w, e, tid) && ValidRun(c, Happen(c, w, e), es)
    ensures Moves(es, tid) <= Length(e)
  {
    var w := Run(c, InitialWorld(shared), before);
    RunKeepsDispatch(c, InitialWorld(shared), before);
    StepKeepsDispatch(c, w, e);
    BeginsWithLength(c, w, e, tid);
    EndsWithin(c, Happen(c, w, e), es, tid);
  }
}
