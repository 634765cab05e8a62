/** The lifecycle states of a task, the transition table, and what every walk through the table obeys. */
module TaskState {

  datatype State = Pending | Creating | Scheduled | Starting | Running | Stopping | Completed | Failed

  /** The transition table: the states that may follow `s`, in the table's order. */
  function Successors(s: State): seq<State> {
    match s
    case Pending => [Pending, Creating, Scheduled]
    case Creating => [Creating, Scheduled, Failed]
    case Scheduled => [Scheduled, Starting, Failed]
    case Starting => [Starting, Running, Failed]
    case Running => [Running, Stopping, Completed, Failed, Scheduled]
    case Stopping => [Stopping, Completed, Failed]
    case Completed => []
    case Failed => [Scheduled]
  }

  predicate Contains(states: seq<State>, s: State) {
    s in states
  }

  predicate ValidStateTransition(src: State, dst: State) {
    Contains(Successors(src), dst)
  }

  /** The table in full: forward moves, a way to Failed from the five states in between, restarts, and repetition where
      a task is neither finished nor failed. */
  lemma TableIs(src: State, dst: State)
    ensures ValidStateTransition(src, dst) <==>
      || (dst == Pending && src == Pending)
      || (dst == Creating && src in {Pending, Creating})
      || (dst == Scheduled && src in {Pending, Creating, Scheduled, Running, Failed})
      || (dst == Starting && src in {Scheduled, Starting})
      || (dst == Running && src in {Starting, Running})
      || (dst == Stopping && src in {Running, Stopping})
      || (dst == Completed && src in {Running, Stopping})
      || (dst == Failed && src in {Creating, Scheduled, Starting, Running, Stopping})
  {
  }

  /** Position along the intended lifecycle; `Failed` can be entered from anywhere and so comes last. */
  function Rank(s: State): nat {
    match s
    case Pending => 0
    case Creating => 1
    case Scheduled => 2
    case Starting => 3
    case Running => 4
    case Stopping => 5
    case Completed => 6
    case Failed => 7
  }

  /** Only a restart goes back: to Scheduled, from Running or from Failed. */
  lemma OnlyRestartsGoBack(src: State, dst: State)
    ensures ValidStateTransition(src, dst) && Rank(dst) < Rank(src) <==>
      dst == Scheduled && (src == Running || src == Failed)
  {
    assert Rank(dst) < Rank(src) ==> dst in [Pending, Creating, Scheduled, Starting, Running, Stopping, Completed];
  }

  predicate Terminal(s: State) {
    s == Completed || s == Failed
  }

  /** Every step of the walk is in the table. */
  ghost predicate TablePath(p: seq<State>) {
    forall i :: 0 < i < |p| ==> ValidStateTransition(p[i - 1], p[i])
  }

  /** Every step of the walk is in the table or repeats the state. */
  ghost predicate StutterPath(p: seq<State>) {
    forall i :: 0 < i < |p| ==> p[i - 1] == p[i] || ValidStateTransition(p[i - 1], p[i])
  }

  ghost predicate RankMonotone(p: seq<State>) {
    forall i :: 0 < i < |p| ==> Rank(p[i - 1]) <= Rank(p[i])
  }

  /** No walk ever leaves `Completed`. */
  lemma {:induction false} CompletedIsFinal(p: seq<State>, i: nat, j: nat)
    requires StutterPath(p)
    requires i <= j < |p| && p[i] == Completed
    ensures p[j] == Completed
    decreases j
  {
    if i < j {
      CompletedIsFinal(p, i, j - 1);
    }
  }

  /** If a walk is in state `s` at `k` but did not start there, it entered `s` from another state before `k`. */
  lemma {:induction false} Entered(p: seq<State>, s: State, k: nat) returns (j: nat)
    requires StutterPath(p) && k < |p| && p[k] == s && p[0] != s
    ensures j < k && p[j] != s && p[j + 1] == s && ValidStateTransition(p[j], s)
    decreases k
  {
    if p[k - 1] != s {
      j := k - 1;
    } else {
      j := Entered(p, s, k - 1);
    }
  }

  /** A walk that begins before `Scheduled` can be Running only after it was Scheduled and then Starting. */
  lemma RunningOnlyAfterStarting(p: seq<State>, k: nat)
    requires StutterPath(p) && k < |p| && p[k] == Running
    requires Rank(p[0]) < Rank(Scheduled)
    ensures exists i, j :: 0 <= i < j < k && p[i] == Scheduled && p[j] == Starting
  {
    var j := Entered(p, Running, k);
    assert p[j] == Starting;
    var i := Entered(p, Starting, j);
    assert p[i] == Scheduled;
  }
}
