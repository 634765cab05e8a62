/** The marginal cost by which the E-PVM scheduler ranks nodes. */
module Epvm {
  import opened Floats

  /** What is assumed of raising the base constant to a power. */
  ghost predicate Exponential(pow: real -> real) {
    && (forall x :: pow(x) > 0.0)
    && (forall x, y :: Rises(pow, x, y))
    && (forall x, y :: Multiplies(pow, x, y))
  }

  predicate Rises(pow: real -> real, x: real, y: real) {
    x < y ==> pow(x) < pow(y)
  }

  predicate Multiplies(pow: real -> real, x: real, y: real) {
    pow(x + y) == pow(x) * pow(y)
  }

  const MAX_JOBS: real := 4.0

  function Load(usage: real, capacity: real): real
    requires capacity != 0.0
  {
    usage / capacity
  }

  /** The cost of adding a task that needs `extra` memory to a node that uses `used` of `memory` and has
      `tasks` tasks. */
  function Cost(pow: real -> real, cpuLoad: real, used: real, memory: real, tasks: int, extra: real): real
    requires memory != 0.0
  {
    var newMemPercent := Load(used + extra, memory);
    var memPercent := used / memory;
    var jobs, newJobs := tasks as real / MAX_JOBS, (tasks + 1) as real / MAX_JOBS;
    var memCost := pow(newMemPercent) + pow(newJobs) - pow(memPercent) - pow(jobs);
    var cpuCost := pow(cpuLoad) + pow(newJobs) - pow(cpuLoad) - pow(jobs);
    memCost + cpuCost
  }

  /** The same as the code computes it, for every size that a node can report. */
  function Score(pow: real -> real, cpuLoad: real, used: real, memory: real, tasks: int, extra: real): Float {
    var newMemPercent := Quotient(used + extra, memory);
    var memPercent := Quotient(used, memory);
    var jobs, newJobs := tasks as real / MAX_JOBS, (tasks + 1) as real / MAX_JOBS;
    var memCost :=
      Minus(Minus(Plus(Power(pow, newMemPercent), Num(pow(newJobs))), Power(pow, memPercent)), Num(pow(jobs)));
    var cpuCost := pow(cpuLoad) + pow(newJobs) - pow(cpuLoad) - pow(jobs);
    Plus(memCost, Num(cpuCost))
  }

  /** For a node that has a size the score is a number, the cost. */
  lemma ScoreIsCost(pow: real -> real, cpuLoad: real, used: real, memory: real, tasks: int, extra: real)
    requires memory != 0.0
    ensures Score(pow, cpuLoad, used, memory, tasks, extra) == Num(Cost(pow, cpuLoad, used, memory, tasks, extra))
  {
  }

  /** For a node that reports size 0 it is none, if the amounts are not negative; and with a negative amount it can be
      infinite. */
  lemma NoSizeNoScore(pow: real -> real, cpuLoad: real, used: real, tasks: int, extra: real)
    ensures Score(pow, cpuLoad, used, 0.0, tasks, extra) ==
      if used < 0.0 && used + extra < 0.0 then
        Num(2.0 * (pow((tasks + 1) as real / MAX_JOBS) - pow(tasks as real / MAX_JOBS)))
      else if used < 0.0 && used + extra > 0.0 then PosInf
      else if used > 0.0 && used + extra < 0.0 then NegInf
      else NaN
  {
  }

  /** The load that the scheduler goes to such lengths to measure has no influence. */
  lemma CpuLoadCancels(
      pow: real -> real, load: real, other: real, used: real, memory: real, tasks: int, extra: real)
    ensures Score(pow, load, used, memory, tasks, extra) == Score(pow, other, used, memory, tasks, extra)
  {
  }

  function Growth(pow: real -> real, at: real, step: real): real {
    pow(at + step) - pow(at)
  }

  lemma Positive(x: real, y: real)
    requires x > 0.0 && y > 0.0
    ensures x * y > 0.0
  {
  }

  lemma NotNegative(x: real, y: real)
    requires x >= 0.0 && y >= 0.0
    ensures x * y >= 0.0
  {
  }

  lemma Excess(a: real, factor: real)
    ensures a * factor - a == a * (factor - 1.0)
  {
  }

  lemma Gap(a: real, b: real, factor: real)
    ensures (b * factor - b) - (a * factor - a) == (b - a) * (factor - 1.0)
  {
  }

  /** Of two amounts that grow by the same factor, the larger one grows by more. */
  lemma LargerGrowsMore(a: real, b: real, factor: real, grownA: real, grownB: real)
    requires 0.0 < a <= b && factor >= 1.0 && grownA == a * factor && grownB == b * factor
    ensures 0.0 <= grownA - a <= grownB - b
  {
    Excess(a, factor);
    Gap(a, b, factor);
    NotNegative(a, factor - 1.0);
    NotNegative(b - a, factor - 1.0);
  }

  lemma LargerGrowsStrictlyMore(a: real, b: real, factor: real, grownA: real, grownB: real)
    requires 0.0 < a <= b && factor > 1.0 && grownA == a * factor && grownB == b * factor
    ensures 0.0 < grownA - a
    ensures a < b ==> grownA - a < grownB - b
  {
    Excess(a, factor);
    Gap(a, b, factor);
    Positive(a, factor - 1.0);
    if a < b {
      Positive(b - a, factor - 1.0);
    }
  }

  lemma OwnSquare(x: real, square: real)
    requires x > 0.0 && square == x * x && square == x
    ensures x == 1.0
  {
    assert x * (x - 1.0) == 0.0;
  }

  lemma PowOfZero(pow: real -> real)
    requires Exponential(pow)
    ensures pow(0.0) == 1.0
  {
    assert Multiplies(pow, 0.0, 0.0);
    OwnSquare(pow(0.0), pow(0.0 + 0.0));
  }

  /** An exponential grows faster further out. */
  lemma GrowthIncreases(pow: real -> real, low: real, high: real, step: real)
    requires Exponential(pow) && low <= high && step >= 0.0
    ensures 0.0 <= Growth(pow, low, step) <= Growth(pow, high, step)
    ensures step > 0.0 ==> 0.0 < Growth(pow, low, step)
    ensures step > 0.0 && low < high ==> Growth(pow, low, step) < Growth(pow, high, step)
  {
    PowOfZero(pow);
    assert Multiplies(pow, low, step) && Multiplies(pow, high, step);
    assert Rises(pow, 0.0, step) && Rises(pow, low, high);
    LargerGrowsMore(pow(low), pow(high), pow(step), pow(low + step), pow(high + step));
    if step > 0.0 {
      LargerGrowsStrictlyMore(pow(low), pow(high), pow(step), pow(low + step), pow(high + step));
    }
  }

  lemma CostIsGrowth(pow: real -> real, load: real, used: real, memory: real, tasks: int, extra: real)
    requires memory > 0.0
    ensures Cost(pow, load, used, memory, tasks, extra) ==
      Growth(pow, used / memory, extra / memory) + 2.0 * Growth(pow, tasks as real / MAX_JOBS, 1.0 / MAX_JOBS)
  {
    assert (used + extra) / memory == used / memory + extra / memory;
    assert (tasks + 1) as real / MAX_JOBS == tasks as real / MAX_JOBS + 1.0 / MAX_JOBS;
  }

  /** The cost in full: what the extra memory adds to the power of the share in use, and twice what one more task adds
      to that of the tasks, of which four make a share of 1. */
  lemma CostInFull(pow: real -> real, load: real, used: real, memory: real, tasks: int, extra: real)
    requires memory != 0.0
    ensures Cost(pow, load, used, memory, tasks, extra) ==
      pow((used + extra) / memory) - pow(used / memory) +
      2.0 * (pow((tasks + 1) as real / 4.0) - pow(tasks as real / 4.0))
  {
  }

  lemma QuotientOrder(a: real, b: real, c: real)
    requires c > 0.0 && a <= b
    ensures a / c <= b / c
  {
  }

  /** A score is always positive, so a node without a score, which reads as 0, always looks cheaper. */
  lemma CostIsPositive(pow: real -> real, load: real, used: real, memory: real, tasks: int, extra: real)
    requires Exponential(pow) && memory > 0.0 && extra >= 0.0
    ensures Cost(pow, load, used, memory, tasks, extra) > 0.0
  {
    CostIsGrowth(pow, load, used, memory, tasks, extra);
    QuotientOrder(0.0, extra, memory);
    GrowthIncreases(pow, used / memory, used / memory, extra / memory);
    GrowthIncreases(pow, tasks as real / MAX_JOBS, tasks as real / MAX_JOBS, 1.0 / MAX_JOBS);
  }

  lemma QuotientStrict(a: real, b: real, c: real)
    requires c > 0.0 && a < b
    ensures a / c < b / c
  {
  }

  /** Of two nodes of the same size with as many tasks, the one that uses less memory is cheaper for a task that needs
      some. */
  lemma LessUsedCostsLess(
      pow: real -> real, load: real, other: real, used: real, more: real, memory: real, tasks: int, extra: real)
    requires Exponential(pow) && memory > 0.0 && extra > 0.0 && used < more
    ensures Cost(pow, load, used, memory, tasks, extra) < Cost(pow, other, more, memory, tasks, extra)
  {
    CostIsGrowth(pow, load, used, memory, tasks, extra);
    CostIsGrowth(pow, other, more, memory, tasks, extra);
    QuotientStrict(0.0, extra, memory);
    QuotientStrict(used, more, memory);
    GrowthIncreases(pow, used / memory, more / memory, extra / memory);
  }

  /** Of two nodes of the same size, the one that uses no more memory and has fewer tasks is cheaper,
      whatever their CPU loads. */
  lemma FewerTasksCostLess(
      pow: real -> real, load: real, other: real, used: real, more: real, memory: real,
      fewer: int, tasks: int, extra: real)
    requires Exponential(pow) && memory > 0.0 && extra >= 0.0
    requires used <= more && fewer < tasks
    ensures Cost(pow, load, used, memory, fewer, extra) < Cost(pow, other, more, memory, tasks, extra)
  {
    CostIsGrowth(pow, load, used, memory, fewer, extra);
    CostIsGrowth(pow, other, more, memory, tasks, extra);
    QuotientOrder(0.0, extra, memory);
    QuotientOrder(used, more, memory);
    GrowthIncreases(pow, used / memory, more / memory, extra / memory);
    GrowthIncreases(pow, fewer as real / MAX_JOBS, tasks as real / MAX_JOBS, 1.0 / MAX_JOBS);
  }
}
