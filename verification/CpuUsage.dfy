/** The CPU usage of a node from two samples of its counters, in wrapping 64-bit arithmetic. */
module CpuUsage {
  import opened Tasks

  const WORD := 0x1_0000_0000_0000_0000

  type Word = n: int | 0 <= n < 0x1_0000_0000_0000_0000

  datatype CpuStat = CpuStat(
    user: Word, nice: Word, system: Word, idle: Word, ioWait: Word, irq: Word, softIrq: Word, steal: Word)

  function Add(a: Word, b: Word): Word {
    (a + b) % WORD
  }

  function Sub(a: Word, b: Word): Word {
    (a - b) % WORD
  }

  function Idle(s: CpuStat): Word {
    Add(s.idle, s.ioWait)
  }

  function NonIdle(s: CpuStat): Word {
    Add(Add(Add(Add(Add(s.user, s.nice), s.system), s.irq), s.softIrq), s.steal)
  }

  function Total(s: CpuStat): Word {
    Add(Idle(s), NonIdle(s))
  }

  /** The share of `total` that is not `idle`; none where the code divides by zero. */
  function BusyShare(total: Word, idle: Word): Option<real> {
    if total == 0 && idle == 0 then Some(0.0)
    else if total == 0 then None
    else Some((total as real - idle as real) / total as real)
  }

  function Usage(before: CpuStat, after: CpuStat): Option<real> {
    BusyShare(Sub(Total(after), Total(before)), Sub(Idle(after), Idle(before)))
  }

  // ---------------------------------------------------------------- meaning

  /** What really passed between two samples, per counter. */
  datatype Elapsed = Elapsed(
    user: nat, nice: nat, system: nat, idle: nat, ioWait: nat, irq: nat, softIrq: nat, steal: nat)

  function Later(s: CpuStat, d: Elapsed): CpuStat {
    CpuStat((s.user + d.user) % WORD, (s.nice + d.nice) % WORD, (s.system + d.system) % WORD,
            (s.idle + d.idle) % WORD, (s.ioWait + d.ioWait) % WORD, (s.irq + d.irq) % WORD,
            (s.softIrq + d.softIrq) % WORD, (s.steal + d.steal) % WORD)
  }

  function IdleTime(d: Elapsed): nat {
    d.idle + d.ioWait
  }

  function BusyTime(d: Elapsed): nat {
    d.user + d.nice + d.system + d.irq + d.softIrq + d.steal
  }

  /** The two numbers differ by whole words. */
  ghost predicate Same(a: int, b: int) {
    exists k: int :: a == b + k * WORD
  }

  lemma SameMod(a: int)
    ensures Same(a % WORD, a)
  {
    assert a % WORD == a + (-(a / WORD)) * WORD;
  }

  lemma SameSum(a: int, b: int, c: int, d: int)
    requires Same(a, b) && Same(c, d)
    ensures Same(a + c, b + d) && Same(a - c, b - d)
  {
    var k: int :| a == b + k * WORD;
    var l: int :| c == d + l * WORD;
    assert a + c == b + d + (k + l) * WORD && a - c == b - d + (k - l) * WORD;
  }

  lemma SameSym(a: int, b: int)
    requires Same(a, b)
    ensures Same(b, a)
  {
    var k: int :| a == b + k * WORD;
    assert b == a + (-k) * WORD;
  }

  lemma SameTrans(a: int, b: int, c: int)
    requires Same(a, b) && Same(b, c)
    ensures Same(a, c)
  {
    var k: int :| a == b + k * WORD;
    var l: int :| b == c + l * WORD;
    assert a == c + (k + l) * WORD;
  }

  lemma SameSmall(a: int, b: int)
    requires Same(a, b) && 0 <= a < WORD && 0 <= b < WORD
    ensures a == b
  {
  }

  lemma AddIs(a: Word, b: Word, x: int, y: int)
    requires Same(a, x) && Same(b, y)
    ensures Same(Add(a, b), x + y)
  {
    SameMod(a + b);
    SameSum(a, x, b, y);
    SameTrans(Add(a, b), a + b, x + y);
  }

  const NOTHING := Elapsed(0, 0, 0, 0, 0, 0, 0, 0)

  lemma LaterCounters(s: CpuStat, d: Elapsed)
    ensures var l := Later(s, d);
      && Same(l.user, s.user + d.user) && Same(l.nice, s.nice + d.nice) && Same(l.system, s.system + d.system)
      && Same(l.idle, s.idle + d.idle) && Same(l.ioWait, s.ioWait + d.ioWait) && Same(l.irq, s.irq + d.irq)
      && Same(l.softIrq, s.softIrq + d.softIrq) && Same(l.steal, s.steal + d.steal)
  {
    forall a: int ensures Same(a % WORD, a) {
      SameMod(a);
    }
  }

  lemma IdleIs(s: CpuStat, d: Elapsed)
    ensures Same(Idle(Later(s, d)), s.idle + s.ioWait + IdleTime(d))
  {
    LaterCounters(s, d);
    var l := Later(s, d);
    AddIs(l.idle, l.ioWait, s.idle + d.idle, s.ioWait + d.ioWait);
  }

  lemma NonIdleIs(s: CpuStat, d: Elapsed)
    ensures Same(NonIdle(Later(s, d)), s.user + s.nice + s.system + s.irq + s.softIrq + s.steal + BusyTime(d))
  {
    LaterCounters(s, d);
    var l := Later(s, d);
    var a := s.user + d.user;
    var b := a + s.nice + d.nice;
    var c := b + s.system + d.system;
    var e := c + s.irq + d.irq;
    var f := e + s.softIrq + d.softIrq;
    AddIs(l.user, l.nice, a, s.nice + d.nice);
    AddIs(Add(l.user, l.nice), l.system, b, s.system + d.system);
    AddIs(Add(Add(l.user, l.nice), l.system), l.irq, c, s.irq + d.irq);
    AddIs(Add(Add(Add(l.user, l.nice), l.system), l.irq), l.softIrq, e, s.softIrq + d.softIrq);
    AddIs(Add(Add(Add(Add(l.user, l.nice), l.system), l.irq), l.softIrq), l.steal, f, s.steal + d.steal);
  }

  lemma TotalIs(s: CpuStat, d: Elapsed)
    ensures Same(Total(Later(s, d)),
                 s.idle + s.ioWait + IdleTime(d) +
                 (s.user + s.nice + s.system + s.irq + s.softIrq + s.steal + BusyTime(d)))
  {
    IdleIs(s, d);
    NonIdleIs(s, d);
    AddIs(Idle(Later(s, d)), NonIdle(Later(s, d)), s.idle + s.ioWait + IdleTime(d),
          s.user + s.nice + s.system + s.irq + s.softIrq + s.steal + BusyTime(d));
  }

  lemma WrappedDifference(a: Word, b: Word, y: int, z: int)
    requires Same(a, y + z) && Same(b, y)
    ensures Sub(a, b) == z % WORD
  {
    SameSum(a, y + z, b, y);
    SameMod(a - b);
    SameTrans(Sub(a, b), a - b, z);
    SameMod(z);
    SameSym(z % WORD, z);
    SameTrans(Sub(a, b), z, z % WORD);
    SameSmall(Sub(a, b), z % WORD);
  }

  lemma LaterNothing(s: CpuStat)
    ensures Later(s, NOTHING) == s
  {
  }

  lemma IdleDifference(s: CpuStat, d: Elapsed)
    ensures Sub(Idle(Later(s, d)), Idle(s)) == IdleTime(d) % WORD
  {
    IdleIs(s, NOTHING);
    IdleIs(s, d);
    LaterNothing(s);
    WrappedDifference(Idle(Later(s, d)), Idle(s), s.idle + s.ioWait, IdleTime(d));
  }

  lemma TotalDifference(s: CpuStat, d: Elapsed)
    ensures Sub(Total(Later(s, d)), Total(s)) == (IdleTime(d) + BusyTime(d)) % WORD
  {
    TotalIs(s, NOTHING);
    TotalIs(s, d);
    LaterNothing(s);
    WrappedDifference(Total(Later(s, d)), Total(s),
                      s.idle + s.ioWait + (s.user + s.nice + s.system + s.irq + s.softIrq + s.steal),
                      IdleTime(d) + BusyTime(d));
  }

  /** Counters that wrapped on the way, and sums that overflow, do not matter: the differences are the true
      amounts of time, reduced to a word. */
  lemma DifferencesAreElapsedTime(s: CpuStat, d: Elapsed)
    ensures Sub(Idle(Later(s, d)), Idle(s)) == IdleTime(d) % WORD
    ensures Sub(Total(Later(s, d)), Total(s)) == (IdleTime(d) + BusyTime(d)) % WORD
  {
    IdleDifference(s, d);
    TotalDifference(s, d);
  }

  lemma Share(part: nat, all: nat)
    requires part <= all && all > 0
    ensures 0.0 <= part as real / all as real <= 1.0
  {
  }

  lemma SmallMod(a: int)
    requires 0 <= a < WORD
    ensures a % WORD == a
  {
  }

  /** If less than a word of time passed in all, the result is exactly the busy share of it: defined, between
      0 and 1, and 0 if nothing passed. */
  lemma UsageIsBusyShare(s: CpuStat, d: Elapsed)
    requires IdleTime(d) + BusyTime(d) < WORD
    ensures var all := IdleTime(d) + BusyTime(d);
      Usage(s, Later(s, d)) == Some(if all == 0 then 0.0 else BusyTime(d) as real / all as real)
    ensures 0.0 <= Usage(s, Later(s, d)).value <= 1.0
  {
    var all := IdleTime(d) + BusyTime(d);
    DifferencesAreElapsedTime(s, d);
    SmallMod(IdleTime(d));
    SmallMod(all);
    if all > 0 {
      Share(BusyTime(d), all);
    }
  }

  /** The division by zero that is left: a multiple of a word passed in all, but not in idle time. */
  lemma UndefinedExactlyWhen(s: CpuStat, d: Elapsed)
    ensures Usage(s, Later(s, d)).None? <==>
      (IdleTime(d) + BusyTime(d)) % WORD == 0 && IdleTime(d) % WORD != 0
  {
    DifferencesAreElapsedTime(s, d);
  }
}
