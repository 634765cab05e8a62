/** The worker's dispatcher as a labelled transition system.

    One action is one atomic step of one goroutine: a caller of AddTask, the dispatch loop, a
    re-queueing goroutine, or a runTask goroutine.  A task that AddTask accepts is known by its ticket,
    its position in the order of acceptance, so that equal tasks stay apart. */
module Dispatcher {
  import opened TaskState
  import opened Tasks

  datatype Config = Config(queueSize: nat, maxConcurrent: int)

  type Ticket = nat

  /** Where the dispatch loop stands, with the ticket it holds. */
  datatype Phase =
    | Selecting             // in the select statement
    | Received(k: Ticket)   // took a task from the channel, slot counter not read yet
    | Full(k: Ticket)       // found no slot; sleeping before the re-queue
    | Granted(k: Ticket)    // counted the slot; the goroutine is not launched yet
    | Exited

  datatype Dispatch = Dispatch(
    accepted: seq<Task>,     // history: every task AddTask did not refuse, by ticket
    blocked: set<Ticket>,    // AddTask callers at their channel send
    buffer: seq<Ticket>,     // the channel's buffer, oldest first
    phase: Phase,
    requeue: set<Ticket>,    // re-queueing goroutines at their channel send
    running: set<Ticket>,    // live runTask goroutines
    finished: set<Ticket>,   // runTask goroutines that released their slot
    started: seq<Ticket>,    // history: launches of runTask, in order
    currentRunning: int,
    cancelled: bool)

  datatype Action =
    | Submit(t: Task, newId: Id)         // AddTask is called
    | Send(k: Ticket, retry: bool)       // a blocked sender puts its task in the buffer
    | Handoff(k: Ticket, retry: bool)    // a blocked sender meets the waiting dispatcher
    | Receive
    | Check
    | Resend
    | Launch
    | Release(k: Ticket)
    | Cancel
    | Exit

  const INITIAL := Dispatch([], {}, [], Selecting, {}, {}, {}, [], 0, false)

  /** AddTask refuses tasks that are already in a final state. */
  predicate Admitted(t: Task) {
    t.state != Completed && t.state != Failed
  }

  /** AddTask gives a task without an id a new one. */
  function Identified(t: Task, newId: Id): Task {
    if t.id == NIL_ID then t.(id := newId) else t
  }

  predicate Waiting(s: Dispatch, k: Ticket, retry: bool) {
    if retry then k in s.requeue else k in s.blocked
  }

  predicate Enabled(c: Config, s: Dispatch, a: Action) {
    match a
    case Submit(_, _) => true
    case Send(k, retry) => Waiting(s, k, retry) && |s.buffer| < c.queueSize
    case Handoff(k, retry) => Waiting(s, k, retry) && s.buffer == [] && s.phase == Selecting
    case Receive => s.phase == Selecting && s.buffer != []
    case Check => s.phase.Received?
    case Resend => s.phase.Full?
    case Launch => s.phase.Granted?
    case Release(k) => k in s.running
    case Cancel => true
    case Exit => s.phase == Selecting && s.cancelled
  }

  function Apply(c: Config, s: Dispatch, a: Action): Dispatch
    requires Enabled(c, s, a)
  {
    match a
    case Submit(t, newId) =>
      if Admitted(t) then
        s.(accepted := s.accepted + [Identified(t, newId)], blocked := s.blocked + {|s.accepted|})
      else s
    case Send(k, true) => s.(requeue := s.requeue - {k}, buffer := s.buffer + [k])
    case Send(k, false) => s.(blocked := s.blocked - {k}, buffer := s.buffer + [k])
    case Handoff(k, true) => s.(requeue := s.requeue - {k}, phase := Received(k))
    case Handoff(k, false) => s.(blocked := s.blocked - {k}, phase := Received(k))
    case Receive => s.(phase := Received(s.buffer[0]), buffer := s.buffer[1..])
    case Check =>
      if s.currentRunning >= c.maxConcurrent then s.(phase := Full(s.phase.k))
      else s.(phase := Granted(s.phase.k), currentRunning := s.currentRunning + 1)
    case Resend => s.(phase := Selecting, requeue := s.requeue + {s.phase.k})
    case Launch =>
      s.(phase := Selecting, running := s.running + {s.phase.k}, started := s.started + [s.phase.k])
    case Release(k) =>
      s.(running := s.running - {k}, finished := s.finished + {k}, currentRunning := s.currentRunning - 1)
    case Cancel => s.(cancelled := true)
    case Exit => s.(phase := Exited)
  }

  // ---------------------------------------------------------------- runs

  predicate ValidRun(c: Config, s: Dispatch, acts: seq<Action>)
    decreases |acts|
  {
    acts == [] || (Enabled(c, s, acts[0]) && ValidRun(c, Apply(c, s, acts[0]), acts[1..]))
  }

  function Run(c: Config, s: Dispatch, acts: seq<Action>): Dispatch
    requires ValidRun(c, s, acts)
    decreases |acts|
  {
    if acts == [] then s else Run(c, Apply(c, s, acts[0]), acts[1..])
  }

  /** No new task arrives. */
  ghost predicate Closed(acts: seq<Action>) {
    forall i :: 0 <= i < |acts| ==> !acts[i].Submit?
  }

  /** The tasks that the calls of AddTask along a run hand over, in order. */
  function Submissions(acts: seq<Action>): seq<Task> {
    if acts == [] then []
    else (if acts[0].Submit? && Admitted(acts[0].t) then [Identified(acts[0].t, acts[0].newId)] else [])
         + Submissions(acts[1..])
  }

  /** What AddTask does with a task: one in a final state is refused, and any other accepted as it is, but for the
      id, which is a new one if it had none. */
  lemma SubmissionOutcome(c: Config, s: Dispatch, t: Task, newId: Id)
    ensures var s' := Apply(c, s, Submit(t, newId));
      if t.state == Completed || t.state == Failed then s' == s
      else
        && s'.accepted == s.accepted + [t.(id := if t.id == NIL_ID then newId else t.id)]
        && s'.blocked == s.blocked + {|s.accepted|}
        && s' == s.(accepted := s'.accepted, blocked := s'.blocked)
  {
  }

  /** Every admitted task is accepted, under an id, in the order of the calls, and nothing else ever is. */
  lemma {:induction false} AcceptedAreSubmitted(c: Config, s: Dispatch, acts: seq<Action>)
    requires ValidRun(c, s, acts)
    ensures Run(c, s, acts).accepted == s.accepted + Submissions(acts)
    decreases |acts|
  {
    if acts != [] {
      AcceptedAreSubmitted(c, Apply(c, s, acts[0]), acts[1..]);
    }
  }

  // ---------------------------------------------------------------- the queue

  /** The ticket that the dispatcher has in hand. */
  function InHand(s: Dispatch): seq<Ticket> {
    match s.phase
    case Received(k) => [k]
    case Full(k) => [k]
    case Granted(k) => [k]
    case _ => []
  }

  /** The tickets that senders put into the channel along a run, in order; a handoff puts its ticket in as well. */
  function Entered(acts: seq<Action>): seq<Ticket> {
    if acts == [] then []
    else (if acts[0].Send? || acts[0].Handoff? then [acts[0].k] else []) + Entered(acts[1..])
  }

  /** The tickets that the dispatcher has in hand after each time it took one out of the channel, in order. */
  function Taken(c: Config, s: Dispatch, acts: seq<Action>): seq<Ticket>
    requires ValidRun(c, s, acts)
    decreases |acts|
  {
    if acts == [] then [] else
      var s' := Apply(c, s, acts[0]);
      (if acts[0].Receive? || acts[0].Handoff? then InHand(s') else []) + Taken(c, s', acts[1..])
  }

  lemma StepKeepsOrder(c: Config, s: Dispatch, a: Action)
    requires Enabled(c, s, a)
    ensures var s' := Apply(c, s, a);
      s.buffer + (if a.Send? || a.Handoff? then [a.k] else []) ==
      (if a.Receive? || a.Handoff? then InHand(s') else []) + s'.buffer
  {
  }

  lemma Regroup(a: seq<Ticket>, b: seq<Ticket>, x: seq<Ticket>, y: seq<Ticket>, u: seq<Ticket>, v: seq<Ticket>)
    requires a + x == u + b && b + y == v
    ensures a + (x + y) == u + v
  {
    Associates(a, x, y);
    Associates(u, b, y);
  }

  /** The channel is a queue: along every run tickets come out in the order in which they went in, whether they waited
      in the buffer or were handed over, and what has not come out is in the buffer, in that order. */
  lemma {:induction false} FirstInFirstOut(c: Config, s: Dispatch, acts: seq<Action>)
    requires ValidRun(c, s, acts)
    ensures s.buffer + Entered(acts) == Taken(c, s, acts) + Run(c, s, acts).buffer
    decreases |acts|
  {
    if acts != [] {
      var a, s' := acts[0], Apply(c, s, acts[0]);
      StepKeepsOrder(c, s, a);
      FirstInFirstOut(c, s', acts[1..]);
      var entering := if a.Send? || a.Handoff? then [a.k] else [];
      var leaving := if a.Receive? || a.Handoff? then InHand(s') else [];
      Regroup(s.buffer, s'.buffer, entering, Entered(acts[1..]), leaving,
              Taken(c, s', acts[1..]) + Run(c, s', acts[1..]).buffer);
      Associates(leaving, Taken(c, s', acts[1..]), Run(c, s', acts[1..]).buffer);
    }
  }

  /** The tickets that were in hand when goroutines were launched along a run, in order. */
  function Launched(c: Config, s: Dispatch, acts: seq<Action>): seq<Ticket>
    requires ValidRun(c, s, acts)
    decreases |acts|
  {
    if acts == [] then []
    else (if acts[0].Launch? then InHand(s) else []) + Launched(c, Apply(c, s, acts[0]), acts[1..])
  }

  /** The goroutines are launched one after the other, each for the task that the dispatcher has in hand. */
  lemma {:induction false} LaunchesKeepOrder(c: Config, s: Dispatch, acts: seq<Action>)
    requires ValidRun(c, s, acts)
    ensures Run(c, s, acts).started == s.started + Launched(c, s, acts)
    decreases |acts|
  {
    if acts != [] {
      var s' := Apply(c, s, acts[0]);
      LaunchesKeepOrder(c, s', acts[1..]);
      Associates(s.started, if acts[0].Launch? then InHand(s) else [], Launched(c, s', acts[1..]));
    }
  }

  /** A sender can go on exactly if there is room in the buffer, or the dispatcher waits at an empty one. */
  lemma SenderGoesOnExactlyWhen(c: Config, s: Dispatch, k: Ticket, retry: bool)
    requires if retry then k in s.requeue else k in s.blocked
    ensures Enabled(c, s, Send(k, retry)) || Enabled(c, s, Handoff(k, retry)) <==>
      |s.buffer| < c.queueSize || (s.buffer == [] && s.phase == Selecting)
  {
  }

  /** The dispatcher gives a slot to the task in hand exactly if there are fewer running than allowed; otherwise the
      task goes back to the queue behind the others. */
  lemma SlotIsGivenExactlyWhen(c: Config, s: Dispatch, k: Ticket)
    requires s.phase == Received(k)
    ensures var s' := Apply(c, s, Check);
      && (s'.phase == Granted(k) <==> s.currentRunning < c.maxConcurrent)
      && (s.currentRunning >= c.maxConcurrent ==>
            Apply(c, s', Resend) == s.(phase := Selecting, requeue := s.requeue + {k}))
  {
  }

  /** Shutdown lets the dispatcher exit as soon as it waits again, at any time and whatever is queued; without it the
      dispatcher never does. */
  lemma ExitsExactlyWhen(c: Config, s: Dispatch, a: Action)
    requires Enabled(c, s, a)
    ensures var s' := Apply(c, s, a);
      && (Enabled(c, s', Exit) <==> s'.phase == Selecting && (s.cancelled || a == Cancel))
      && (s'.phase == Exited <==> s.phase == Exited || (a == Exit && s.cancelled))
      && (a == Cancel || a == Exit ==> s' == s.(phase := s'.phase, cancelled := s'.cancelled))
  {
  }

  // ---------------------------------------------------------------- conservation

  predicate Holds(s: Dispatch, k: Ticket) {
    (s.phase.Received? || s.phase.Full? || s.phase.Granted?) && s.phase.k == k
  }

  function One(b: bool): nat {
    if b then 1 else 0
  }

  /** How many goroutines and buffer slots hold ticket `k`, finished goroutines included. */
  function Holders(s: Dispatch, k: Ticket): nat {
    One(k in s.blocked) + multiset(s.buffer)[k] + One(Holds(s, k)) + One(k in s.requeue)
    + One(k in s.running) + One(k in s.finished)
  }

  /** Accepted, but no slot counted yet. */
  predicate Unstarted(s: Dispatch, k: Ticket) {
    k in s.blocked || k in s.buffer || k in s.requeue || (Holds(s, k) && !s.phase.Granted?)
  }

  /** A ticket is held exactly once if it was given out and not at all otherwise; it was launched once
      if its goroutine runs or has run, and not at all otherwise. */
  predicate ConservedAt(s: Dispatch, k: Ticket) {
    && Holders(s, k) == One(k < |s.accepted|)
    && multiset(s.started)[k] == One(k in s.running || k in s.finished)
  }

  ghost predicate Conserved(s: Dispatch) {
    forall k: Ticket :: ConservedAt(s, k)
  }

  ghost predicate Counted(c: Config, s: Dispatch) {
    && |s.buffer| <= c.queueSize
    && s.currentRunning == |s.running| + (if s.phase.Granted? then 1 else 0)
    && s.currentRunning <= (if c.maxConcurrent < 0 then 0 else c.maxConcurrent)
    && (s.phase == Exited ==> s.cancelled)
  }

  ghost predicate Inv(c: Config, s: Dispatch) {
    Conserved(s) && Counted(c, s)
  }

  lemma SendConserves(c: Config, s: Dispatch, a: Action, k: Ticket)
    requires a.Submit? || a.Send? || a.Handoff?
    requires ConservedAt(s, k) && Enabled(c, s, a)
    ensures ConservedAt(Apply(c, s, a), k)
  {
  }

  lemma LoopConserves(c: Config, s: Dispatch, a: Action, k: Ticket)
    requires a.Receive? || a.Check? || a.Resend?
    requires ConservedAt(s, k) && Enabled(c, s, a)
    ensures ConservedAt(Apply(c, s, a), k)
  {
    if a.Receive? {
      assert s.buffer == [s.buffer[0]] + s.buffer[1..];
    }
  }

  lemma StepConserves(c: Config, s: Dispatch, a: Action, k: Ticket)
    requires ConservedAt(s, k) && Enabled(c, s, a)
    ensures ConservedAt(Apply(c, s, a), k)
  {
    if a.Submit? || a.Send? || a.Handoff? {
      SendConserves(c, s, a, k);
    } else if a.Receive? || a.Check? || a.Resend? {
      LoopConserves(c, s, a, k);
    }
  }

  lemma StepCounts(c: Config, s: Dispatch, a: Action)
    requires Inv(c, s) && Enabled(c, s, a)
    ensures Counted(c, Apply(c, s, a))
  {
    if a.Launch? {
      assert ConservedAt(s, s.phase.k);
    }
  }

  lemma StepKeepsInv(c: Config, s: Dispatch, a: Action)
    requires Inv(c, s) && Enabled(c, s, a)
    ensures Inv(c, Apply(c, s, a))
  {
    StepCounts(c, s, a);
    var s' := Apply(c, s, a);
    forall k: Ticket ensures ConservedAt(s', k) {
      assert ConservedAt(s, k);
      StepConserves(c, s, a, k);
    }
  }

  lemma {:induction false} RunKeepsInv(c: Config, s: Dispatch, acts: seq<Action>)
    requires Inv(c, s) && ValidRun(c, s, acts)
    ensures Inv(c, Run(c, s, acts))
    decreases |acts|
  {
    if acts != [] {
      StepKeepsInv(c, s, acts[0]);
      RunKeepsInv(c, Apply(c, s, acts[0]), acts[1..]);
    }
  }

  /** In every reachable state, also after Shutdown: each accepted task is held by exactly one goroutine or
      buffer slot, nothing else is held, none is launched twice, and the slot counter counts exactly
      the granted or live goroutines and never exceeds the limit. */
  lemma Conservation(c: Config, acts: seq<Action>)
    requires ValidRun(c, INITIAL, acts)
    ensures var s := Run(c, INITIAL, acts);
      && (forall k: Ticket :: Holders(s, k) == One(k < |s.accepted|))
      && (forall k: Ticket :: multiset(s.started)[k] == One(k in s.running || k in s.finished))
      && |s.buffer| <= c.queueSize
      && s.currentRunning == |s.running| + One(s.phase.Granted?)
      && s.currentRunning <= (if c.maxConcurrent < 0 then 0 else c.maxConcurrent)
  {
    RunKeepsInv(c, INITIAL, acts);
    var s := Run(c, INITIAL, acts);
    forall k: Ticket
      ensures Holders(s, k) == One(k < |s.accepted|)
      ensures multiset(s.started)[k] == One(k in s.running || k in s.finished)
    {
      assert ConservedAt(s, k);
    }
  }

  /** Once the dispatcher has exited, nothing is launched any more, whatever is still submitted. */
  lemma {:induction false} NothingStartsAfterExit(c: Config, s: Dispatch, acts: seq<Action>)
    requires s.phase == Exited && ValidRun(c, s, acts)
    ensures Run(c, s, acts).phase == Exited && Run(c, s, acts).started == s.started
    decreases |acts|
  {
    if acts != [] {
      NothingStartsAfterExit(c, Apply(c, s, acts[0]), acts[1..]);
    }
  }

  // ---------------------------------------------------------------- progress

  /** Work left: each stage a task still has to pass. */
  function Measure(s: Dispatch): nat {
    5 * (|s.blocked| + |s.requeue|) + 4 * |s.buffer| + |s.running| +
    match s.phase
    case Full(_) => 6
    case Received(_) => 3
    case Granted(_) => 2
    case _ => 0
  }

  /** The loop never waits for room in its own queue: whatever it holds, its next step is enabled,
      however full the buffer is. */
  lemma DispatcherNeverBlocksHoldingATask(c: Config, s: Dispatch)
    requires s.phase.Received? || s.phase.Full? || s.phase.Granted?
    ensures exists a :: a in {Check, Resend, Launch} && Enabled(c, s, a) && Apply(c, s, a).phase != s.phase
  {
    var a := if s.phase.Received? then Check else if s.phase.Full? then Resend else Launch;
    assert Enabled(c, s, a);
  }

  lemma SendProgresses(c: Config, s: Dispatch, a: Action)
    requires Enabled(c, s, a) && (a.Send? || a.Handoff? || a.Receive?)
    ensures Measure(Apply(c, s, a)) < Measure(s)
  {
  }

  lemma LoopProgresses(c: Config, s: Dispatch, a: Action)
    requires Enabled(c, s, a) && (a.Check? || a.Resend? || a.Launch?)
    ensures a.Check? && Apply(c, s, a).phase.Full? ==> Measure(Apply(c, s, a)) == Measure(s) + 3
    ensures !(a.Check? && Apply(c, s, a).phase.Full?) ==> Measure(Apply(c, s, a)) < Measure(s)
  {
  }

  lemma ReleaseProgresses(c: Config, s: Dispatch, k: Ticket)
    requires Enabled(c, s, Release(k))
    ensures Measure(Apply(c, s, Release(k))) < Measure(s)
  {
  }

  /** A step other than a submission gets closer to the end, unless all the slots are taken; cancelling and
      exiting leave the work as it is. */
  lemma EveryStepButARefusalProgresses(c: Config, s: Dispatch, a: Action)
    requires Inv(c, s) && Enabled(c, s, a) && !a.Submit?
    ensures var before, after := Measure(s), Measure(Apply(c, s, a));
      if a.Cancel? || a.Exit? then after == before
      else if a.Check? && Apply(c, s, a).phase.Full? then after == before + 3
      else after < before
  {
    if a.Send? || a.Handoff? || a.Receive? {
      SendProgresses(c, s, a);
    } else if a.Release? {
      ReleaseProgresses(c, s, a.k);
    } else if !a.Cancel? && !a.Exit? {
      assert a.Launch? ==> ConservedAt(s, s.phase.k);
      LoopProgresses(c, s, a);
    }
  }

  /** How often the dispatcher finds no slot along a run. */
  function Refusals(c: Config, s: Dispatch, acts: seq<Action>): nat
    requires ValidRun(c, s, acts)
    decreases |acts|
  {
    if acts == [] then 0 else
      var s' := Apply(c, s, acts[0]);
      (if acts[0].Check? && s'.phase.Full? then 1 else 0) + Refusals(c, s', acts[1..])
  }

  /** How often Shutdown is called or the dispatcher exits. */
  function Interruptions(acts: seq<Action>): nat {
    if acts == [] then 0 else (if acts[0].Cancel? || acts[0].Exit? then 1 else 0) + Interruptions(acts[1..])
  }

  /** Only refusals can keep the system busy: without new work, every run, under any scheduling, is no longer
      than the work it started with plus four steps per refusal, calls of Shutdown and the exit not counted. */
  lemma {:induction false} RunLengthBound(c: Config, s: Dispatch, acts: seq<Action>)
    requires Inv(c, s) && ValidRun(c, s, acts) && Closed(acts)
    ensures |acts| + Measure(Run(c, s, acts)) <= Measure(s) + 4 * Refusals(c, s, acts) + Interruptions(acts)
    decreases |acts|
  {
    if acts != [] {
      EveryStepButARefusalProgresses(c, s, acts[0]);
      StepKeepsInv(c, s, acts[0]);
      RunLengthBound(c, Apply(c, s, acts[0]), acts[1..]);
    }
  }

  ghost predicate AllFinished(s: Dispatch) {
    forall k: Ticket :: k < |s.accepted| ==> k in s.finished
  }

  /** Nothing waits for a slot, or slots exist and the dispatcher is there to hand them out. */
  ghost predicate CanFinish(c: Config, s: Dispatch) {
    (forall k: Ticket :: !Unstarted(s, k)) || (c.maxConcurrent >= 1 && s.phase != Exited)
  }

  /** Every unfinished ticket is somewhere on its way. */
  lemma Locate(s: Dispatch, k: Ticket)
    requires Conserved(s) && k < |s.accepted| && k !in s.finished
    ensures Unstarted(s, k) || (s.phase == Granted(k)) || k in s.running
  {
    assert ConservedAt(s, k);
  }

  lemma OnlySubmissionsWait(c: Config, s: Dispatch, a: Action, k: Ticket)
    requires Enabled(c, s, a) && !a.Submit? && Unstarted(Apply(c, s, a), k)
    ensures Unstarted(s, k)
  {
  }

  lemma Progress(c: Config, s: Dispatch) returns (a: Action)
    requires Inv(c, s) && CanFinish(c, s) && !AllFinished(s)
    ensures Enabled(c, s, a) && !a.Submit? && !a.Cancel? && !a.Exit?
    ensures CanFinish(c, Apply(c, s, a)) && Measure(Apply(c, s, a)) < Measure(s)
  {
    var k: Ticket :| k < |s.accepted| && k !in s.finished;
    Locate(s, k);
    if s.phase.Full? {
      a := Resend;
    } else if s.phase.Granted? {
      a := Launch;
    } else if s.running != {} {
      var r :| r in s.running;
      a := Release(r);
    } else if s.phase.Received? {
      a := Check;
    } else if s.buffer != [] {
      a := Receive;
    } else {
      a := Handoff(k, k in s.requeue);
    }
    EveryStepButARefusalProgresses(c, s, a);
    forall j | Unstarted(Apply(c, s, a), j) ensures Unstarted(s, j) {
      OnlySubmissionsWait(c, s, a, j);
    }
  }

  lemma Prepend(c: Config, s: Dispatch, a: Action, rest: seq<Action>)
    requires Enabled(c, s, a) && ValidRun(c, Apply(c, s, a), rest)
    ensures ValidRun(c, s, [a] + rest) && Run(c, s, [a] + rest) == Run(c, Apply(c, s, a), rest)
  {
    assert ([a] + rest)[1..] == rest;
  }

  /** From a state that can finish, a schedule of at most `Measure` steps finishes every accepted task. */
  lemma {:induction false} Drain(c: Config, s: Dispatch) returns (acts: seq<Action>)
    requires Inv(c, s) && CanFinish(c, s)
    ensures ValidRun(c, s, acts) && Closed(acts) && |acts| <= Measure(s)
    ensures AllFinished(Run(c, s, acts))
    decreases Measure(s)
  {
    if AllFinished(s) {
      acts := [];
    } else {
      var a := Progress(c, s);
      StepKeepsInv(c, s, a);
      var rest := Drain(c, Apply(c, s, a));
      Prepend(c, s, a, rest);
      acts := [a] + rest;
    }
  }

  /** Without a slot or without a dispatcher, a task that is not started stays so. */
  lemma {:induction false} Starved(c: Config, s: Dispatch, acts: seq<Action>, k: Ticket)
    requires Inv(c, s) && ValidRun(c, s, acts) && Unstarted(s, k)
    requires c.maxConcurrent <= 0 || s.phase == Exited
    ensures Unstarted(Run(c, s, acts), k)
    decreases |acts|
  {
    if acts != [] {
      StepKeepsInv(c, s, acts[0]);
      Starved(c, Apply(c, s, acts[0]), acts[1..], k);
    }
  }

  /** Some schedule, without new submissions, finishes every task accepted so far. */
  ghost predicate Drainable(c: Config, s: Dispatch) {
    exists acts :: ValidRun(c, s, acts) && Closed(acts) && AllFinished(Run(c, s, acts))
  }

  /** Deadlock freedom, exactly: in every reachable state some schedule finishes every accepted task if
      and only if nothing waits for a slot, or slots exist and the dispatcher has not exited.  The queue
      size plays no part, so an unbuffered queue drains too. */
  lemma DrainableExactlyWhen(c: Config, acts: seq<Action>)
    requires ValidRun(c, INITIAL, acts)
    ensures var s := Run(c, INITIAL, acts); Drainable(c, s) <==> CanFinish(c, s)
  {
    RunKeepsInv(c, INITIAL, acts);
    var s := Run(c, INITIAL, acts);
    if CanFinish(c, s) {
      var schedule := Drain(c, s);
    } else {
      var k :| Unstarted(s, k);
      forall more | ValidRun(c, s, more) && Closed(more)
        ensures !AllFinished(Run(c, s, more))
      {
        Starved(c, s, more, k);
        RunKeepsInv(c, s, more);
        assert ConservedAt(Run(c, s, more), k);
      }
    }
  }
}
