/** Nodes and the three schedulers. */
module Scheduler {
  import opened Tasks
  import opened CpuUsage
  import opened Floats
  import Epvm

  datatype Stats = Stats(memTotal: Word, memAvailable: Word, diskAll: Word, cpu: CpuStat)

  /** What a stats request brings: nothing on any error (connection, status, decoding, or a reply without
      memory or disk section). */
  type Reply = Option<Stats>

  /** The location of a node's `Stats` field, whose address GetStats returns. */
  class StatsCell {
    var v: Stats

    constructor (v: Stats)
      ensures this.v == v
    {
      this.v := v;
    }
  }

  /** Conversion of an unsigned to a signed 64-bit number. */
  function Int64(w: Word): int {
    if w < WORD / 2 then w else w - WORD
  }

  lemma Int64Is(w: Word)
    ensures -0x8000_0000_0000_0000 <= Int64(w) < 0x8000_0000_0000_0000
    ensures w == if Int64(w) < 0 then Int64(w) + 0x1_0000_0000_0000_0000 else Int64(w)
  {
  }

  function MemUsedKb(s: Stats): Word {
    Sub(s.memTotal, s.memAvailable)
  }

  class Node {
    const name: string
    var memory: int
    var memoryAllocated: int
    var disk: int
    var diskAllocated: int
    const stats: StatsCell
    var taskCount: int

    constructor (name: string)
      ensures this.name == name && fresh(stats)
      ensures memory == memoryAllocated == disk == diskAllocated == taskCount == 0
    {
      this.name := name;
      memory, memoryAllocated, disk, diskAllocated, taskCount := 0, 0, 0, 0, 0;
      stats := new StatsCell(Stats(0, 0, 0, CpuStat(0, 0, 0, 0, 0, 0, 0, 0)));
    }

    /** Overwrites the node's statistics and returns a pointer to them, not a copy. */
    method GetStats(reply: Reply) returns (r: Option<StatsCell>)
      modifies this`memory, this`disk, stats
      ensures if reply.None? then r.None? && memory == old(memory) && disk == old(disk) && stats.v == old(stats.v)
              else r == Some(stats) && stats.v == reply.value
                   && memory == Int64(reply.value.memTotal) && disk == Int64(reply.value.diskAll)
    {
      if reply.None? {
        return None;
      }
      memory := Int64(reply.value.memTotal);
      disk := Int64(reply.value.diskAll);
      stats.v := reply.value;
      r := Some(stats);
    }

    /** Takes two samples.  Both are the same object, so they never differ: whatever the node reports, the
        measured usage is 0. */
    method CalculateCpuUsage(first: Reply, second: Reply) returns (usage: Option<real>)
      modifies this`memory, this`disk, stats
      ensures usage == if first.Some? && second.Some? then Some(0.0) else None
      ensures usage.Some? ==> stats.v == second.value && memory == Int64(second.value.memTotal)
    {
      var stat1 := GetStats(first);
      if stat1.None? {
        return None;
      }
      var stat2 := GetStats(second);
      if stat2.None? {
        return None;
      }
      usage := Usage(stat1.value.v.cpu, stat2.value.v.cpu);
    }
  }

  type Scores = map<string, Float>

  /** A missing score reads as 0. */
  function ScoreOf(scores: Scores, name: string): Float {
    if name in scores then scores[name] else Num(0.0)
  }

  function Names(nodes: seq<Node>): (names: seq<string>)
    ensures |names| == |nodes|
    ensures forall i :: 0 <= i < |nodes| ==> names[i] == nodes[i].name
  {
    seq(|nodes|, i requires 0 <= i < |nodes| => nodes[i].name)
  }

  /** `k` is the first of the positions with the lowest score.  If the first score is NaN nothing is found to be
      lower, and otherwise NaN is never found to be lower. */
  ghost predicate FirstLowest(scores: Scores, names: seq<string>, k: nat) {
    && k < |names|
    && if ScoreOf(scores, names[0]).NaN? then k == 0
       else && !ScoreOf(scores, names[k]).NaN?
            && (forall j :: 0 <= j < k ==>
                  ScoreOf(scores, names[j]).NaN? || Less(ScoreOf(scores, names[k]), ScoreOf(scores, names[j])))
            && (forall j :: k <= j < |names| ==> !Less(ScoreOf(scores, names[j]), ScoreOf(scores, names[k])))
  }

  method Pick(scores: Scores, candidates: seq<Node>) returns (best: Node?, ghost k: nat)
    ensures best == null <==> candidates == []
    ensures candidates != [] ==> FirstLowest(scores, Names(candidates), k) && best == candidates[k]
  {
    best, k := null, 0;
    var lowest := Num(0.0);
    for i := 0 to |candidates|
      invariant best == null <==> i == 0
      invariant i > 0 ==> FirstLowest(scores, Names(candidates)[..i], k)
      invariant i > 0 ==> best == candidates[k] && lowest == ScoreOf(scores, best.name)
    {
      var node := candidates[i];
      if i == 0 || Less(ScoreOf(scores, node.name), lowest) {
        best, lowest, k := node, ScoreOf(scores, node.name), i;
      }
    }
    assert Names(candidates)[..|candidates|] == Names(candidates);
  }

  predicate CheckDisk(disk: int, diskAvailable: int) {
    disk <= diskAvailable
  }

  /** The nodes with room on disk for a task that needs `disk`, in their order. */
  function Feasible(disk: int, nodes: seq<Node>): seq<Node>
    reads nodes
    decreases |nodes|
  {
    if nodes == [] then []
    else (if CheckDisk(disk, nodes[0].disk - nodes[0].diskAllocated) then [nodes[0]] else [])
         + Feasible(disk, nodes[1..])
  }

  /** The filter keeps the order. */
  lemma {:induction false} FeasibleConcat(disk: int, nodes: seq<Node>, more: seq<Node>)
    ensures Feasible(disk, nodes + more) == Feasible(disk, nodes) + Feasible(disk, more)
    decreases |nodes|
  {
    if nodes == [] {
      assert nodes + more == more;
    } else {
      assert (nodes + more)[1..] == nodes[1..] + more && (nodes + more)[0] == nodes[0];
      FeasibleConcat(disk, nodes[1..], more);
      Associates(if CheckDisk(disk, nodes[0].disk - nodes[0].diskAllocated) then [nodes[0]] else [],
                 Feasible(disk, nodes[1..]), Feasible(disk, more));
    }
  }

  lemma FeasibleOne(disk: int, n: Node)
    ensures Feasible(disk, [n]) == if disk <= n.disk - n.diskAllocated then [n] else []
  {
  }

  /** The filter keeps exactly the nodes with room. */
  lemma {:induction false} FeasibleIffRoom(disk: int, nodes: seq<Node>, n: Node)
    ensures n in Feasible(disk, nodes) <==> n in nodes && disk <= n.disk - n.diskAllocated
    decreases |nodes|
  {
    if nodes != [] {
      FeasibleIffRoom(disk, nodes[1..], n);
    }
  }

  method SelectCandidateNodes(t: Task, nodes: seq<Node>) returns (candidates: seq<Node>)
    ensures candidates == Feasible(t.disk, nodes)
  {
    candidates := [];
    for i := 0 to |nodes|
      invariant candidates == Feasible(t.disk, nodes[..i])
    {
      if CheckDisk(t.disk, nodes[i].disk - nodes[i].diskAllocated) {
        candidates := candidates + [nodes[i]];
      }
      FeasibleConcat(t.disk, nodes[..i], [nodes[i]]);
      assert nodes[..i] + [nodes[i]] == nodes[..i + 1];
    }
    assert nodes[..|nodes|] == nodes;
  }

  // ---------------------------------------------------------------- scoring

  ghost predicate Distinct(names: seq<string>) {
    forall i, j :: 0 <= i < j < |names| ==> names[i] != names[j]
  }

  /** No two positions share a node or its statistics. */
  ghost predicate Separate(nodes: seq<Node>) {
    forall i, j :: 0 <= i < j < |nodes| ==> nodes[i] != nodes[j] && nodes[i].stats != nodes[j].stats
  }

  /** The objects that scoring the nodes may change. */
  ghost function Footprint(nodes: seq<Node>): set<object> {
    (set n | n in nodes :: n as object) + (set n | n in nodes :: n.stats as object)
  }

  /** The answers a node gives to the two requests of one measurement. */
  type Replies = (Reply, Reply)

  predicate Answered(r: Replies) {
    r.0.Some? && r.1.Some?
  }

  function NextWorker(last: nat, n: nat): nat {
    if last + 1 < n then last + 1 else 0
  }

  class RoundRobin {
    var lastWorker: nat

    constructor ()
      ensures lastWorker == 0
    {
      lastWorker := 0;
    }

    method Score(nodes: seq<Node>) returns (scores: Scores)
      modifies this
      ensures lastWorker == NextWorker(old(lastWorker), |nodes|)
      ensures Distinct(Names(nodes)) ==>
        forall i :: 0 <= i < |nodes| ==>
          ScoreOf(scores, nodes[i].name) == if i == lastWorker then Num(0.1) else Num(1.0)
    {
      var newWorker;
      if lastWorker + 1 < |nodes| {
        newWorker := lastWorker + 1;
        lastWorker := lastWorker + 1;
      } else {
        newWorker := 0;
        lastWorker := 0;
      }
      scores := map[];
      for i := 0 to |nodes|
        invariant Distinct(Names(nodes)) ==>
          forall j :: 0 <= j < i ==> ScoreOf(scores, nodes[j].name) == if j == newWorker then Num(0.1) else Num(1.0)
      {
        assert forall j :: 0 <= j < i ==> Names(nodes)[j] == nodes[j].name;
        scores := scores[nodes[i].name := if i == newWorker then Num(0.1) else Num(1.0)];
      }
    }
  }

  /** 2 to the power 0.8. */
  const CPU_CAPACITY := 1.7411011265922482

  /** The i-th node has this name, and answered. */
  predicate Measured(nodes: seq<Node>, replies: seq<Replies>, i: nat, name: string)
    requires i < |nodes| == |replies|
  {
    nodes[i].name == name && Answered(replies[i])
  }

  method GreedyScore(nodes: seq<Node>, replies: seq<Replies>) returns (scores: Scores)
    requires |replies| == |nodes|
    modifies Footprint(nodes)
    ensures forall n :: n in nodes ==> n.taskCount == old(n.taskCount) && n.memoryAllocated == old(n.memoryAllocated)
    ensures forall name :: name in scores <==> exists i :: 0 <= i < |nodes| && Measured(nodes, replies, i, name)
    ensures forall name :: name in scores ==> scores[name] == Num(0.0)
  {
    scores := map[];
    for i := 0 to |nodes|
      invariant forall n :: n in nodes ==>
        n.taskCount == old(n.taskCount) && n.memoryAllocated == old(n.memoryAllocated)
      invariant forall name :: name in scores <==> exists j :: 0 <= j < i && Measured(nodes, replies, j, name)
      invariant forall name :: name in scores ==> scores[name] == Num(0.0)
    {
      var n := nodes[i];
      assert n in nodes && n in Footprint(nodes) && n.stats in Footprint(nodes);
      var usage := n.CalculateCpuUsage(replies[i].0, replies[i].1);
      assert Measured(nodes, replies, i, n.name) == usage.Some?;
      if usage.Some? {
        scores := scores[n.name := Num(Epvm.Load(usage.value, CPU_CAPACITY))];
      }
      assert forall name :: Measured(nodes, replies, i, name) ==> name == n.name;
    }
  }

  /** Division that rounds towards zero. */
  function Truncated(a: int, b: int): int
    requires b > 0
  {
    if a >= 0 then a / b else -(-a / b)
  }

  lemma TruncatedRounds(a: int, b: int)
    requires b > 0
    ensures var q := Truncated(a, b);
      if a >= 0 then q * b <= a < (q + 1) * b else (q - 1) * b < a <= q * b
  {
  }

  /** The memory in use on a node, by its statistics and by what is set aside. */
  function MemoryUsed(n: Node): real
    reads n, n.stats
  {
    MemUsedKb(n.stats.v) as real + n.memoryAllocated as real
  }

  /** The score of `n` for `t`, its measured CPU load being 0. */
  function PlacementScore(pow: real -> real, t: Task, n: Node): Float
    reads n, n.stats
  {
    Epvm.Score(pow, 0.0, MemoryUsed(n), n.memory as real, n.taskCount, Truncated(t.memory, 1000) as real)
  }

  /** The cost of placing `t` on `n`, which has a size. */
  function PlacementCost(pow: real -> real, t: Task, n: Node): real
    requires n.memory != 0
    reads n, n.stats
  {
    Epvm.Cost(pow, 0.0, MemoryUsed(n), n.memory as real, n.taskCount, Truncated(t.memory, 1000) as real)
  }

  lemma ScoredByItsCost(pow: real -> real, t: Task, n: Node)
    ensures n.memory != 0 ==> PlacementScore(pow, t, n) == Num(PlacementCost(pow, t, n))
    ensures n.memory == 0 && MemoryUsed(n) >= 0.0 && t.memory >= 0 ==> PlacementScore(pow, t, n) == NaN
  {
    if n.memory != 0 {
      Epvm.ScoreIsCost(pow, 0.0, MemoryUsed(n), n.memory as real, n.taskCount, Truncated(t.memory, 1000) as real);
    } else {
      Epvm.NoSizeNoScore(pow, 0.0, MemoryUsed(n), n.taskCount, Truncated(t.memory, 1000) as real);
    }
  }

  /** The node shows what it answered last. */
  predicate Measures(n: Node, r: Replies)
    reads n, n.stats
  {
    r.1.Some? && n.stats.v == r.1.value && n.memory == Int64(r.1.value.memTotal)
  }

  /** One round of the scoring loop. */
  method MarginalCost(pow: real -> real, t: Task, n: Node, r: Replies) returns (cost: Option<Float>)
    modifies n`memory, n`disk, n.stats
    ensures cost.Some? <==> Answered(r)
    ensures cost.Some? ==> cost.value == PlacementScore(pow, t, n) && Measures(n, r)
  {
    var usage := n.CalculateCpuUsage(r.0, r.1);
    if usage.None? {
      return None;
    }
    var load := Epvm.Load(usage.value, CPU_CAPACITY);
    var used, extra := MemUsedKb(n.stats.v) as real + n.memoryAllocated as real, Truncated(t.memory, 1000) as real;
    cost := Some(Epvm.Score(pow, load, used, n.memory as real, n.taskCount, extra));
  }

  /** The names tell the nodes apart. */
  ghost predicate Told(nodes: seq<Node>) {
    Separate(nodes) && Distinct(Names(nodes))
  }

  method EpvmScore(pow: real -> real, t: Task, nodes: seq<Node>, replies: seq<Replies>) returns (scores: Scores)
    requires |replies| == |nodes|
    modifies Footprint(nodes)
    ensures forall n :: n in nodes ==> n.taskCount == old(n.taskCount) && n.memoryAllocated == old(n.memoryAllocated)
    ensures Told(nodes) ==> forall i :: 0 <= i < |nodes| ==>
      && (nodes[i].name in scores <==> Answered(replies[i]))
      && (Answered(replies[i]) ==>
            scores[nodes[i].name] == PlacementScore(pow, t, nodes[i]) && Measures(nodes[i], replies[i]))
  {
    scores := map[];
    for i := 0 to |nodes|
      invariant forall n :: n in nodes ==>
        n.taskCount == old(n.taskCount) && n.memoryAllocated == old(n.memoryAllocated)
      invariant Told(nodes) ==>
        forall j :: 0 <= j < |nodes| ==> (nodes[j].name in scores <==> j < i && Answered(replies[j]))
      invariant Told(nodes) ==> forall j :: 0 <= j < i && Answered(replies[j]) ==>
        scores[nodes[j].name] == PlacementScore(pow, t, nodes[j]) && Measures(nodes[j], replies[j])
    {
      var n := nodes[i];
      assert n in nodes && n in Footprint(nodes) && n.stats in Footprint(nodes);
      assert forall j :: 0 <= j < |nodes| ==> Names(nodes)[j] == nodes[j].name;
      assert Told(nodes) ==> forall j :: 0 <= j < |nodes| && j != i ==>
        nodes[j] != n && nodes[j].stats != n.stats && nodes[j].name != n.name;
      var cost := MarginalCost(pow, t, n, replies[i]);
      if cost.Some? {
        scores := scores[n.name := cost.value];
      }
    }
  }

  // ---------------------------------------------------------------- selection

  datatype Policy =
    | ByTurn(state: RoundRobin)
    | ByLoad
    | ByCost(pow: real -> real)

  /** The node differs from all of `others`, also in its name and its statistics. */
  ghost predicate Apart(n: Node, others: seq<Node>) {
    forall o :: o in others ==> n != o && n.stats != o.stats && n.name != o.name
  }

  lemma ToldApart(nodes: seq<Node>)
    requires Told(nodes) && nodes != []
    ensures Told(nodes[1..]) && Apart(nodes[0], nodes[1..])
  {
    assert Names(nodes)[1..] == Names(nodes[1..]);
    forall i | 0 < i < |nodes| ensures nodes[0].name != nodes[i].name {
      assert Names(nodes)[0] != Names(nodes)[i];
    }
  }

  lemma ApartTold(n: Node, others: seq<Node>)
    requires Told(others) && Apart(n, others)
    ensures Told([n] + others)
  {
    assert Names([n] + others) == [n.name] + Names(others);
    assert forall i :: 0 <= i < |others| ==> others[i] in others && Names(others)[i] == others[i].name;
  }

  lemma {:induction false} FeasibleStaysTold(disk: int, nodes: seq<Node>)
    requires Told(nodes)
    ensures Told(Feasible(disk, nodes))
    decreases |nodes|
  {
    if nodes != [] {
      ToldApart(nodes);
      FeasibleStaysTold(disk, nodes[1..]);
      var rest := Feasible(disk, nodes[1..]);
      forall n | n in rest ensures n in nodes[1..] {
        FeasibleIffRoom(disk, nodes[1..], n);
      }
      ApartTold(nodes[0], rest);
      assert [] + rest == rest;
    }
  }

  /** Which nodes the scheduler considers for `t`. */
  function Candidates(s: Policy, t: Task, nodes: seq<Node>): seq<Node>
    reads nodes
  {
    if s.ByTurn? then nodes else Feasible(t.disk, nodes)
  }

  method Consider(s: Policy, t: Task, nodes: seq<Node>) returns (cs: seq<Node>)
    ensures cs == Candidates(s, t, nodes)
    ensures (forall n :: n in cs ==> n in nodes) && Footprint(cs) <= Footprint(nodes)
    ensures Told(nodes) ==> Told(cs)
  {
    if s.ByTurn? {
      return nodes;
    }
    cs := SelectCandidateNodes(t, nodes);
    forall n | n in cs ensures n in nodes {
      FeasibleIffRoom(t.disk, nodes, n);
    }
    if Told(nodes) {
      FeasibleStaysTold(t.disk, nodes);
    }
  }

  /** What the E-PVM scheduler's scores say about the candidates, as they are after scoring. */
  ghost predicate ScoredByCost(pow: real -> real, t: Task, cs: seq<Node>, replies: seq<Replies>, scores: Scores)
    requires |replies| == |cs|
    reads cs, Footprint(cs)
  {
    forall i :: 0 <= i < |cs| ==>
      && (cs[i].name in scores <==> Answered(replies[i]))
      && (Answered(replies[i]) ==>
            scores[cs[i].name] == PlacementScore(pow, t, cs[i]) && Measures(cs[i], replies[i]))
  }

  /** The measured loads being 0, the Greedy scheduler takes the first candidate. */
  lemma AllZeroPicksFirst(scores: Scores, names: seq<string>, k: nat)
    requires FirstLowest(scores, names, k) && forall name :: name in scores ==> scores[name] == Num(0.0)
    ensures k == 0
  {
    assert !ScoreOf(scores, names[0]).NaN?;
  }

  /** The one low score marks the node to pick. */
  lemma OneLowIsPicked(scores: Scores, names: seq<string>, k: nat, low: nat)
    requires FirstLowest(scores, names, k) && low < |names|
    requires forall i :: 0 <= i < |names| ==> ScoreOf(scores, names[i]) == if i == low then Num(0.1) else Num(1.0)
    ensures k == low
  {
    assert low < k || !Less(ScoreOf(scores, names[low]), ScoreOf(scores, names[k]));
    assert low < k ==> Less(ScoreOf(scores, names[k]), ScoreOf(scores, names[low]));
  }

  /** SelectWorker under round robin. */
  method SelectInTurn(state: RoundRobin, nodes: seq<Node>) returns (w: Node, ghost k: nat, ghost scores: Scores)
    requires nodes != []
    modifies state
    ensures FirstLowest(scores, Names(nodes), k) && w == nodes[k]
    ensures state.lastWorker == NextWorker(old(state.lastWorker), |nodes|)
    ensures Distinct(Names(nodes)) ==> k == state.lastWorker
  {
    var found := state.Score(nodes);
    scores := found;
    w, k := Pick(found, nodes);
    if Distinct(Names(nodes)) {
      OneLowIsPicked(scores, Names(nodes), k, state.lastWorker);
    }
  }

  /** SelectWorker under Greedy. */
  method SelectByLoad(cs: seq<Node>, replies: seq<Replies>) returns (w: Node, ghost k: nat, ghost scores: Scores)
    requires cs != [] && |replies| == |cs|
    modifies Footprint(cs)
    ensures forall n :: n in cs ==> n.taskCount == old(n.taskCount) && n.memoryAllocated == old(n.memoryAllocated)
    ensures FirstLowest(scores, Names(cs), k) && w == cs[k] && k == 0
  {
    var found := GreedyScore(cs, replies);
    scores := found;
    w, k := Pick(found, cs);
    AllZeroPicksFirst(scores, Names(cs), k);
  }

  /** SelectWorker under E-PVM. */
  method SelectByCost(pow: real -> real, t: Task, cs: seq<Node>, replies: seq<Replies>)
    returns (w: Node, ghost k: nat, ghost scores: Scores)
    requires cs != [] && |replies| == |cs|
    modifies Footprint(cs)
    ensures forall n :: n in cs ==> n.taskCount == old(n.taskCount) && n.memoryAllocated == old(n.memoryAllocated)
    ensures FirstLowest(scores, Names(cs), k) && w == cs[k]
    ensures Told(cs) ==> ScoredByCost(pow, t, cs, replies, scores)
  {
    var found := EpvmScore(pow, t, cs, replies);
    scores := found;
    w, k := Pick(found, cs);
  }

  // ---------------------------------------------------------------- why a node was picked

  /** What the manager keeps of a node, as far as a score depends on it. */
  datatype Kept = Kept(memoryAllocated: int, taskCount: int)

  ghost predicate IsKept(cs: seq<Node>, kept: seq<Kept>)
    reads cs
  {
    |kept| == |cs| && forall i :: 0 <= i < |cs| ==> kept[i] == Kept(cs[i].memoryAllocated, cs[i].taskCount)
  }

  /** The candidates, and what is kept of them. */
  datatype Question = Question(cs: seq<Node>, kept: seq<Kept>)

  ghost predicate IsAsked(s: Policy, t: Task, nodes: seq<Node>, q: Question)
    reads nodes, q.cs
  {
    q.cs == Candidates(s, t, nodes) && IsKept(q.cs, q.kept)
  }

  function AnswerScore(pow: real -> real, t: Task, n: Kept, v: Stats): Float {
    Epvm.Score(pow, 0.0, MemUsedKb(v) as real + n.memoryAllocated as real, Int64(v.memTotal) as real, n.taskCount,
               Truncated(t.memory, 1000) as real)
  }

  datatype Choice = Choice(k: nat, scores: Scores)

  /** Greedy takes the first candidate; E-PVM the first one with the lowest score, by what the candidates answered and
      what was kept of them. */
  ghost predicate Justified(
      s: Policy, t: Task, cs: seq<Node>, kept: seq<Kept>, replies: seq<Replies>, c: Choice)
    requires |kept| == |cs| == |replies|
  {
    && FirstLowest(c.scores, Names(cs), c.k)
    && (s.ByLoad? ==> c.k == 0)
    && (s.ByCost? ==> forall i :: 0 <= i < |cs| ==>
          && (cs[i].name in c.scores <==> Answered(replies[i]))
          && (Answered(replies[i]) ==> c.scores[cs[i].name] == AnswerScore(s.pow, t, kept[i], replies[i].1.value)))
  }

  lemma ScoredIsJustified(
      s: Policy, t: Task, cs: seq<Node>, kept: seq<Kept>, replies: seq<Replies>, scores: Scores, k: nat)
    requires |replies| == |cs| && FirstLowest(scores, Names(cs), k) && (s.ByLoad? ==> k == 0)
    requires s.ByCost? ==> ScoredByCost(s.pow, t, cs, replies, scores)
    requires IsKept(cs, kept)
    ensures Justified(s, t, cs, kept, replies, Choice(k, scores))
  {
  }

  /** The round-robin scheduler considers all nodes, the others those with room, in order. */
  lemma CandidatesAre(s: Policy, t: Task, nodes: seq<Node>, n: Node)
    ensures s.ByTurn? ==> Candidates(s, t, nodes) == nodes
    ensures !s.ByTurn? ==>
      (n in Candidates(s, t, nodes) <==> n in nodes && t.disk <= n.disk - n.diskAllocated)
  {
    FeasibleIffRoom(t.disk, nodes, n);
  }

  lemma {:induction false} CandidatesKeepOrder(s: Policy, t: Task, nodes: seq<Node>, more: seq<Node>)
    ensures Candidates(s, t, nodes + more) == Candidates(s, t, nodes) + Candidates(s, t, more)
  {
    FeasibleConcat(t.disk, nodes, more);
  }

  /** Scores the candidates, and picks one. */
  method SelectAmong(s: Policy, t: Task, cs: seq<Node>, replies: seq<Replies>, ghost kept: seq<Kept>)
    returns (w: Node, ghost k: nat, ghost scores: Scores)
    requires cs != [] && |replies| == |cs| && IsKept(cs, kept)
    modifies Footprint(cs)
    modifies if s.ByTurn? then {s.state} else {}
    ensures forall n :: n in cs ==> n.taskCount == old(n.taskCount) && n.memoryAllocated == old(n.memoryAllocated)
    ensures FirstLowest(scores, Names(cs), k) && w == cs[k]
    ensures s.ByTurn? ==> s.state.lastWorker == NextWorker(old(s.state.lastWorker), |cs|)
    ensures s.ByTurn? && Distinct(Names(cs)) ==> k == s.state.lastWorker
    ensures s.ByLoad? ==> k == 0
    ensures s.ByCost? && Told(cs) ==> ScoredByCost(s.pow, t, cs, replies, scores)
    ensures (s.ByCost? ==> Told(cs)) ==> Justified(s, t, cs, kept, replies, Choice(k, scores))
  {
    match s {
      case ByTurn(state) => w, k, scores := SelectInTurn(state, cs);
      case ByLoad => w, k, scores := SelectByLoad(cs, replies);
      case ByCost(pow) => w, k, scores := SelectByCost(pow, t, cs, replies);
    }
    if s.ByCost? ==> Told(cs) {
      ScoredIsJustified(s, t, cs, kept, replies, scores, k);
    }
  }

  /** Selects the first candidate with the lowest score, or fails, without a node, exactly if there is no
      candidate.  `replies[i]` is what the i-th candidate answers. */
  method SelectWorker(s: Policy, t: Task, nodes: seq<Node>, replies: seq<Replies>, ghost q: Question)
    returns (w: Node?, ghost cs: seq<Node>, ghost k: nat, ghost scores: Scores)
    requires IsAsked(s, t, nodes, q) && |replies| == |q.cs|
    modifies Footprint(nodes)
    modifies if s.ByTurn? then {s.state} else {}
    ensures forall n :: n in nodes ==> n.taskCount == old(n.taskCount)
    ensures cs == q.cs && (forall n :: n in cs ==> n in nodes)
    ensures w == null <==> cs == []
    ensures cs != [] ==> FirstLowest(scores, Names(cs), k) && w == cs[k] && w in nodes
    ensures s.ByTurn? && nodes == [] ==> s.state.lastWorker == old(s.state.lastWorker)
    ensures s.ByTurn? && nodes != [] ==> s.state.lastWorker == NextWorker(old(s.state.lastWorker), |nodes|)
    ensures s.ByTurn? && nodes != [] && Distinct(Names(nodes)) ==> k == s.state.lastWorker
    ensures s.ByLoad? ==> k == 0
    ensures s.ByCost? && Told(nodes) && cs != [] ==> ScoredByCost(s.pow, t, cs, replies, scores)
    ensures cs != [] && (s.ByCost? ==> Told(nodes)) ==>
      Justified(s, t, cs, q.kept, replies, Choice(k, scores))
  {
    var candidates := Consider(s, t, nodes);
    cs, k, scores := candidates, 0, map[];
    if candidates == [] {
      return null, cs, k, scores;
    }
    w, k, scores := SelectAmong(s, t, candidates, replies, q.kept);
  }

  /** Among numbers the picked one is lowest. */
  lemma PickedIsLowest(scores: Scores, names: seq<string>, k: nat, other: nat)
    requires FirstLowest(scores, names, k) && other < |names|
    requires ScoreOf(scores, names[k]).Num? && ScoreOf(scores, names[other]).Num?
    ensures ScoreOf(scores, names[k]).r <= ScoreOf(scores, names[other]).r
  {
    if other < k {
      assert Less(ScoreOf(scores, names[k]), ScoreOf(scores, names[other]));
    } else {
      assert !ScoreOf(scores, names[0]).NaN? ==> !Less(ScoreOf(scores, names[other]), ScoreOf(scores, names[k]));
    }
  }

  lemma ScoreIsPositive(pow: real -> real, t: Task, n: Node)
    requires Epvm.Exponential(pow) && t.memory >= 0 && n.memory > 0
    ensures PlacementScore(pow, t, n).Num? && PlacementScore(pow, t, n).r > 0.0
  {
    ScoredByItsCost(pow, t, n);
    Epvm.CostIsPositive(pow, 0.0, MemoryUsed(n), n.memory as real, n.taskCount, Truncated(t.memory, 1000) as real);
  }

  /** Under E-PVM a candidate that did not answer beats every one that did and has a size. */
  lemma UnscoredWins(
      pow: real -> real, t: Task, cs: seq<Node>, replies: seq<Replies>, scores: Scores, k: nat, other: nat)
    requires Epvm.Exponential(pow) && t.memory >= 0 && |replies| == |cs|
    requires ScoredByCost(pow, t, cs, replies, scores) && FirstLowest(scores, Names(cs), k)
    requires other < |cs| && !Answered(replies[other])
    ensures Answered(replies[k]) ==> cs[k].memory <= 0
  {
    if Answered(replies[k]) && cs[k].memory > 0 {
      ScoreIsPositive(pow, t, cs[k]);
      assert ScoreOf(scores, Names(cs)[other]) == Num(0.0);
      PickedIsLowest(scores, Names(cs), k, other);
    }
  }

  /** Under E-PVM a candidate that reports size 0 is picked if and only if it is the first one: its score is NaN, to
      which nothing compares. */
  lemma SizelessIsPickedOnlyFirst(
      pow: real -> real, t: Task, cs: seq<Node>, replies: seq<Replies>, scores: Scores, k: nat, sizeless: nat)
    requires t.memory >= 0 && |replies| == |cs|
    requires ScoredByCost(pow, t, cs, replies, scores) && FirstLowest(scores, Names(cs), k)
    requires sizeless < |cs| && Answered(replies[sizeless]) && cs[sizeless].memory == 0
    requires MemoryUsed(cs[sizeless]) >= 0.0
    ensures k == sizeless <==> sizeless == 0
  {
    ScoredByItsCost(pow, t, cs[sizeless]);
    assert ScoreOf(scores, Names(cs)[sizeless]) == NaN;
  }

  // ---------------------------------------------------------------- in terms of the answers

  /** The node answered, with a total that is a positive signed number. */
  predicate Sized(r: Replies) {
    Answered(r) && 0 < r.1.value.memTotal < 0x8000_0000_0000_0000
  }

  /** What is in use by what the node says, and what is set aside on it.  The difference wraps if more is available
      than there is. */
  function InUse(n: Node, r: Replies): int
    requires r.1.Some?
    reads n
  {
    var d := r.1.value.memTotal - r.1.value.memAvailable;
    (if d < 0 then d + 0x1_0000_0000_0000_0000 else d) + n.memoryAllocated
  }

  lemma UsedIsInUse(n: Node, r: Replies)
    requires Sized(r) && Measures(n, r)
    ensures n.memory == r.1.value.memTotal && MemoryUsed(n) == InUse(n, r) as real
  {
  }

  /** The score in full, in terms of the answer; the task's memory counts in thousands. */
  lemma ScoreInFull(pow: real -> real, t: Task, n: Node, r: Replies)
    requires Sized(r) && Measures(n, r) && t.memory >= 0
    ensures var used, total := InUse(n, r) as real, r.1.value.memTotal as real;
      PlacementScore(pow, t, n) ==
        Num(pow((used + (t.memory / 1000) as real) / total) - pow(used / total) +
            2.0 * (pow((n.taskCount + 1) as real / 4.0) - pow(n.taskCount as real / 4.0)))
  {
    UsedIsInUse(n, r);
    ScoredByItsCost(pow, t, n);
    Epvm.CostInFull(pow, 0.0, MemoryUsed(n), n.memory as real, n.taskCount, (t.memory / 1000) as real);
  }

  /** One node is as large as the other and at least as free, or freer, and has fewer tasks, or as many. */
  predicate Better(t: Task, n: Node, r: Replies, m: Node, q: Replies)
    requires r.1.Some? && q.1.Some?
    reads n, m
  {
    && r.1.value.memTotal == q.1.value.memTotal
    && (|| (InUse(n, r) <= InUse(m, q) && n.taskCount < m.taskCount)
        || (InUse(n, r) < InUse(m, q) && n.taskCount == m.taskCount && t.memory >= 1000))
  }

  lemma BetterIsCheaper(pow: real -> real, t: Task, n: Node, r: Replies, m: Node, q: Replies)
    requires Epvm.Exponential(pow) && t.memory >= 0 && Sized(r) && Measures(n, r) && Sized(q) && Measures(m, q)
    requires Better(t, n, r, m, q)
    ensures PlacementScore(pow, t, n).Num? && PlacementScore(pow, t, m).Num?
    ensures PlacementScore(pow, t, n).r < PlacementScore(pow, t, m).r
  {
    UsedIsInUse(n, r);
    UsedIsInUse(m, q);
    ScoredByItsCost(pow, t, n);
    ScoredByItsCost(pow, t, m);
    if n.taskCount < m.taskCount {
      FewerTasksAreCheaper(pow, t, n, m);
    } else {
      Epvm.LessUsedCostsLess(pow, 0.0, 0.0, MemoryUsed(n), MemoryUsed(m), n.memory as real, n.taskCount,
                             Truncated(t.memory, 1000) as real);
    }
  }

  lemma FewerTasksAreCheaper(pow: real -> real, t: Task, n: Node, m: Node)
    requires Epvm.Exponential(pow) && t.memory >= 0
    requires n.memory == m.memory > 0 && MemoryUsed(n) <= MemoryUsed(m) && n.taskCount < m.taskCount
    ensures PlacementCost(pow, t, n) < PlacementCost(pow, t, m)
  {
    Epvm.FewerTasksCostLess(pow, 0.0, 0.0, MemoryUsed(n), MemoryUsed(m), n.memory as real, n.taskCount, m.taskCount,
                            Truncated(t.memory, 1000) as real);
  }

  /** So of two nodes that are equal otherwise, the one with more memory available is cheaper for a task that needs at
      least a thousand. */
  lemma MoreAvailableIsCheaper(pow: real -> real, t: Task, n: Node, r: Replies, m: Node, q: Replies)
    requires Epvm.Exponential(pow) && t.memory >= 1000 && Sized(r) && Measures(n, r) && Sized(q) && Measures(m, q)
    requires r.1.value.memTotal == q.1.value.memTotal && n.memoryAllocated == m.memoryAllocated
    requires n.taskCount == m.taskCount
    requires q.1.value.memAvailable < r.1.value.memAvailable <= r.1.value.memTotal
    ensures Less(PlacementScore(pow, t, n), PlacementScore(pow, t, m))
  {
    BetterIsCheaper(pow, t, n, r, m, q);
  }

  /** Under E-PVM, by what the nodes answered: a candidate is never picked over one of the same size that has fewer
      tasks and no less memory to spare, or as many tasks and more of it. */
  lemma DominatedLoses(
      pow: real -> real, t: Task, cs: seq<Node>, replies: seq<Replies>, scores: Scores, k: nat, other: nat)
    requires Epvm.Exponential(pow) && t.memory >= 0 && |replies| == |cs|
    requires ScoredByCost(pow, t, cs, replies, scores) && FirstLowest(scores, Names(cs), k)
    requires other < |cs| && Sized(replies[other]) && Sized(replies[k])
    ensures !Better(t, cs[other], replies[other], cs[k], replies[k])
  {
    if Better(t, cs[other], replies[other], cs[k], replies[k]) {
      BetterIsCheaper(pow, t, cs[other], replies[other], cs[k], replies[k]);
      PickedIsLowest(scores, Names(cs), k, other);
    }
  }
}
