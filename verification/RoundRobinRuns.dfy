/** The balance of the round-robin scheduler over whole runs of the manager. */
module RoundRobinRuns {
  import opened Tasks
  import opened ManagerModel
  import Scheduler

  /** The manager with the scheduler's own state. */
  datatype Turn = Turn(m: Manager, last: nat)

  /** SendWork asks the scheduler only for an event whose task has no worker yet. */
  predicate Selects(u: Setup, m: Manager, e: Step) {
    && e.SendWork? && m.pending != [] && m.pending[0].Event? && m.pending[0].te.task.id !in m.taskWorkerMap
    && u.workers != []
  }

  /** The selections of the run are the scheduler's. */
  ghost predicate InTurn(u: Setup, t: Turn, e: Step) {
    && Possible(u, t.m, e)
    && (Selects(u, t.m, e) ==> e.selected == Some(Scheduler.NextWorker(t.last, |u.workers|)))
  }

  ghost function Next(u: Setup, t: Turn, e: Step): Turn
    requires Shaped(u, t.m) && InTurn(u, t, e)
  {
    Turn(Take(u, t.m, e), if Selects(u, t.m, e) then Scheduler.NextWorker(t.last, |u.workers|) else t.last)
  }

  ghost predicate TurnRun(u: Setup, t: Turn, es: seq<Step>)
    decreases |es|
  {
    Shaped(u, t.m) && (es == [] || (InTurn(u, t, es[0]) && TurnRun(u, Next(u, t, es[0]), es[1..])))
  }

  ghost function After(u: Setup, t: Turn, es: seq<Step>): Turn
    requires TurnRun(u, t, es)
    decreases |es|
  {
    if es == [] then t else After(u, Next(u, t, es[0]), es[1..])
  }

  /** How many of the first `k` placements fall on node `i` of `n`, the first one being node 1 mod n. */
  function Share(k: nat, n: nat, i: nat): nat
    requires i < n
  {
    k / n + (if 1 <= i <= k % n then 1 else 0)
  }

  ghost predicate Balanced(u: Setup, t: Turn) {
    var k, n := |t.m.placements|, |u.workers|;
    && Shaped(u, t.m)
    && (n == 0 ==> k == 0)
    && (n > 0 ==> t.last == k % n)
    && (forall j :: 0 <= j < k ==> t.m.placements[j] == (j + 1) % n)
    && (forall i :: 0 <= i < n ==> |t.m.workerTaskMap[u.workers[i]]| == Share(k, n, i))
  }

  lemma DivisionIsUnique(a: nat, n: nat, q: nat, r: nat)
    requires n > 0 && a == q * n + r && r < n
    ensures a / n == q && a % n == r
  {
    var d := q - a / n;
    assert d * n == a % n - r;
    assert d >= 1 ==> d * n >= n;
    assert d <= -1 ==> -d * n >= n;
  }

  lemma NextPlacement(k: nat, n: nat)
    requires n > 0
    ensures (k + 1) / n == k / n + (if k % n + 1 == n then 1 else 0)
    ensures (k + 1) % n == Scheduler.NextWorker(k % n, n)
  {
    var q, r := k / n, k % n;
    assert k == q * n + r;
    if r + 1 == n {
      assert k + 1 == (q + 1) * n;
    }
    DivisionIsUnique(k + 1, n, if r + 1 == n then q + 1 else q, if r + 1 == n then 0 else r + 1);
  }

  lemma ShareGrows(k: nat, n: nat, i: nat)
    requires i < n
    ensures Share(k + 1, n, i) == Share(k, n, i) + (if i == Scheduler.NextWorker(k % n, n) then 1 else 0)
  {
    NextPlacement(k, n);
  }

  /** A selection appends the task to the list of the worker in turn, and nothing else touches the lists. */
  lemma StepAppends(u: Setup, t: Turn, e: Step)
    requires Shaped(u, t.m) && InTurn(u, t, e)
    ensures var m, m' := t.m, Next(u, t, e).m;
      && Shaped(u, m')
      && if Selects(u, m, e) then
           var s := Scheduler.NextWorker(t.last, |u.workers|);
           var w := u.workers[s];
           && m'.placements == m.placements + [s]
           && m'.workerTaskMap == m.workerTaskMap[w := m.workerTaskMap[w] + [m.pending[0].te.task.id]]
         else m'.placements == m.placements && m'.workerTaskMap == m.workerTaskMap
  {
    StepKeepsShape(u, t.m, e);
    if e.UpdateTask? || e.CheckHealth? {
      RewriteKeepsShape(u, t.m, e);
    }
  }

  /** One more placement, on the node in turn, makes its worker's list longer by one. */
  lemma SelectionKeepsBalance(u: Setup, t: Turn, m: Manager, id: Id)
    requires Scheduler.Distinct(u.workers) && Balanced(u, t) && u.workers != [] && Shaped(u, m)
    requires var s := Scheduler.NextWorker(t.last, |u.workers|);
      && m.placements == t.m.placements + [s]
      && m.workerTaskMap == t.m.workerTaskMap[u.workers[s] := t.m.workerTaskMap[u.workers[s]] + [id]]
    ensures Balanced(u, Turn(m, Scheduler.NextWorker(t.last, |u.workers|)))
  {
    var k, n := |t.m.placements|, |u.workers|;
    var s := Scheduler.NextWorker(t.last, n);
    NextPlacement(k, n);
    forall i | 0 <= i < n ensures |m.workerTaskMap[u.workers[i]]| == Share(k + 1, n, i) {
      ShareGrows(k, n, i);
      assert i != s ==> u.workers[i] != u.workers[s];
    }
  }

  lemma StepKeepsBalance(u: Setup, t: Turn, e: Step)
    requires Scheduler.Distinct(u.workers) && Balanced(u, t) && InTurn(u, t, e)
    ensures Balanced(u, Next(u, t, e))
  {
    StepAppends(u, t, e);
    if Selects(u, t.m, e) {
      SelectionKeepsBalance(u, t, Take(u, t.m, e), t.m.pending[0].te.task.id);
    }
  }

  lemma {:induction false} RunKeepsBalance(u: Setup, t: Turn, es: seq<Step>)
    requires Scheduler.Distinct(u.workers) && Balanced(u, t) && TurnRun(u, t, es)
    ensures Balanced(u, After(u, t, es))
    decreases |es|
  {
    if es != [] {
      StepKeepsBalance(u, t, es[0]);
      RunKeepsBalance(u, Next(u, t, es[0]), es[1..]);
    }
  }

  /** With distinct worker names, in every reachable state of the manager the lists of any two workers
      differ by at most one task, and the k-th placement, counted from 1, went to node k mod n. */
  lemma RoundRobinIsFair(u: Setup, es: seq<Step>)
    requires Scheduler.Distinct(u.workers) && TurnRun(u, Turn(NewManager(u), 0), es)
    ensures var m := After(u, Turn(NewManager(u), 0), es).m;
      && (forall k :: 0 <= k < |m.placements| ==> u.workers != [] && m.placements[k] == (k + 1) % |u.workers|)
      && (forall v, w :: v in u.workers && w in u.workers ==>
            && v in m.workerTaskMap && w in m.workerTaskMap
            && |m.workerTaskMap[v]| <= |m.workerTaskMap[w]| + 1)
  {
    RunKeepsBalance(u, Turn(NewManager(u), 0), es);
    var m := After(u, Turn(NewManager(u), 0), es).m;
    forall v, w | v in u.workers && w in u.workers ensures |m.workerTaskMap[v]| <= |m.workerTaskMap[w]| + 1 {
      var i :| 0 <= i < |u.workers| && u.workers[i] == v;
      var j :| 0 <= j < |u.workers| && u.workers[j] == w;
      assert |m.workerTaskMap[v]| == Share(|m.placements|, |u.workers|, i);
      assert |m.workerTaskMap[w]| == Share(|m.placements|, |u.workers|, j);
    }
  }
}
