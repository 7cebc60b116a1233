/** Block-based epoch arithmetic. `/` by a positive divisor is floor division, as `Math.floor(a / b)` is. */
module Epochs {

  function GetEpochFromBlock(block: int, epochBlocks: int, genesisBlock: int): int
    requires epochBlocks > 0
  {
    (block - genesisBlock) / epochBlocks
  }

  function GetEpochStartBlock(epochId: int, epochBlocks: int, genesisBlock: int): int {
    genesisBlock + epochId * epochBlocks
  }

  function GetEpochEndBlock(epochId: int, epochBlocks: int, genesisBlock: int): int {
    GetEpochStartBlock(epochId, epochBlocks, genesisBlock) + epochBlocks - 1
  }

  const MIN_LAUNCH_REMAINING_NUM := 90
  const MIN_LAUNCH_REMAINING_DEN := 100

  /** Blocks that must lie between the deadline and the launch. */
  function MinGap(epochBlocks: int): int {
    var gap := (epochBlocks * MIN_LAUNCH_REMAINING_NUM) / MIN_LAUNCH_REMAINING_DEN;
    if gap == 0 then 1 else gap
  }

  /** The epoch a player-created operation's attack flies in, given the block applications close on. */
  function LaunchEpochOf(deadlineBlock: int, epochBlocks: int, genesisBlock: int): int
    requires epochBlocks > 0
  {
    var candidate := GetEpochFromBlock(deadlineBlock, epochBlocks, genesisBlock) + 1;
    var launchBlock := GetEpochStartBlock(candidate, epochBlocks, genesisBlock);
    if launchBlock <= deadlineBlock || launchBlock - deadlineBlock < MinGap(epochBlocks) then candidate + 1 else candidate
  }

  function GetNextAttackBlock(block: int, epochBlocks: int, genesisBlock: int): int
    requires epochBlocks > 0
  {
    GetEpochStartBlock(GetEpochFromBlock(block, epochBlocks, genesisBlock) + 1, epochBlocks, genesisBlock)
  }

  /** A block belongs to exactly the epoch whose start and end enclose it. */
  lemma EpochEncloses(block: int, epochId: int, e: int, g: int)
    requires e > 0
    ensures GetEpochFromBlock(block, e, g) == epochId
            <==> GetEpochStartBlock(epochId, e, g) <= block <= GetEpochEndBlock(epochId, e, g)
  {
    FloorUnique(block - g, e, epochId);
  }

  lemma FloorUnique(n: int, d: int, q: int)
    requires d > 0
    ensures n / d == q <==> q * d <= n < q * d + d
  {
    assert n == (n / d) * d + n % d;
    if q < n / d { MulMono(q + 1, n / d, d); }
    if q > n / d { MulMono(n / d + 1, q, d); }
  }

  lemma MulMono(a: int, b: int, d: int)
    requires d > 0
    ensures a <= b <==> a * d <= b * d
  {
    if a <= b {
      assert (b - a) * d >= 0;
    } else {
      assert (a - b) * d > 0;
    }
  }

  lemma MinGapBounds(e: int)
    requires e > 0
    ensures 1 <= MinGap(e) <= e
    ensures MinGap(e) == if (9 * e) / 10 > 1 then (9 * e) / 10 else 1
  {
  }

  /**
   * The launch epoch is the least epoch of all that starts at least the cushion after the deadline,
   * and that start is never more than an epoch and the cushion, less one block, away.
   */
  lemma LaunchEpochIsLeast(deadline: int, e: int, g: int, other: int)
    requires e > 0
    ensures var start := GetEpochStartBlock(LaunchEpochOf(deadline, e, g), e, g);
            && deadline + MinGap(e) <= start <= deadline + MinGap(e) + e - 1
            && (GetEpochStartBlock(other, e, g) >= deadline + MinGap(e) <==> LaunchEpochOf(deadline, e, g) <= other)
  {
    MinGapBounds(e);
    var current := GetEpochFromBlock(deadline, e, g);
    EpochEncloses(deadline, current, e, g);
    var launch := LaunchEpochOf(deadline, e, g);
    StartStep(current, e, g);
    StartStep(current + 1, e, g);
    if other >= launch {
      MulMono(launch, other, e);
    } else {
      MulMono(other, launch - 1, e);
    }
  }

  lemma StartStep(epochId: int, e: int, g: int)
    ensures GetEpochStartBlock(epochId + 1, e, g) == GetEpochStartBlock(epochId, e, g) + e
  {
  }

  /** The next automatic attack window is the first epoch boundary after the block, at most an epoch away. */
  lemma NextAttackIsTheNextBoundary(block: int, e: int, g: int, other: int)
    requires e > 0
    ensures var next := GetNextAttackBlock(block, e, g);
            && block < next <= block + e
            && (block < GetEpochStartBlock(other, e, g) ==> next <= GetEpochStartBlock(other, e, g))
  {
    var current := GetEpochFromBlock(block, e, g);
    EpochEncloses(block, current, e, g);
    StartStep(current, e, g);
    if other <= current {
      MulMono(other, current, e);
    } else {
      MulMono(current + 1, other, e);
    }
  }

  lemma LaunchEpochIsMonotone(d1: int, d2: int, e: int, g: int)
    requires e > 0 && d1 <= d2
    ensures LaunchEpochOf(d1, e, g) <= LaunchEpochOf(d2, e, g)
  {
    LaunchEpochIsLeast(d1, e, g, LaunchEpochOf(d2, e, g));
    LaunchEpochIsLeast(d2, e, g, LaunchEpochOf(d2, e, g));
  }
}

/** When the protocol's own draws open and close. */
module GlobalDefense {
  import opened Numbers
  import opened Epochs

  datatype Schedule = Schedule(nextEpoch: int, deadlineBlock: int, openFromBlock: int, joinWindowBlocks: int)

  /** The terms the schedule is computed from; `joinWindowMs` is the preferred window. */
  datatype Terms = Terms(intervalEpochs: int, epochBlocks: int, genesisBlock: int, blockTimeMs: int, joinWindowMs: int) {
    ghost predicate Valid() { intervalEpochs > 0 && epochBlocks > 0 && blockTimeMs > 0 }
    function IntervalBlocks(): int { intervalEpochs * epochBlocks }
  }

  /** `Math.round(a / b)`: halves go up. */
  function Round(a: int, b: int): int
    requires b > 0
  {
    (2 * a + b) / (2 * b)
  }

  function JoinWindowBlocks(t: Terms): int {
    if t.intervalEpochs <= 0 || t.epochBlocks <= 0 || t.blockTimeMs <= 0 then 0
    else
      var preferred := Max(1, Round(t.joinWindowMs, t.blockTimeMs));
      if t.IntervalBlocks() < preferred then Max(1, (t.IntervalBlocks() + 1) / 2)
      else Min(preferred, Max(1, t.IntervalBlocks() - 1))
  }

  /** The next interval epoch strictly after the current one. */
  function NextDrawEpoch(currentEpoch: int, interval: int): int
    requires interval > 0
  {
    (currentEpoch / interval + 1) * interval
  }

  function DrawSchedule(t: Terms, currentEpoch: int): Schedule
    requires t.intervalEpochs > 0
  {
    var next := NextDrawEpoch(currentEpoch, t.intervalEpochs);
    var deadline := GetEpochStartBlock(next, t.epochBlocks, t.genesisBlock) - 1;
    Schedule(next, deadline, Max(0, deadline - JoinWindowBlocks(t)), JoinWindowBlocks(t))
  }

  predicate InJoinWindow(s: Schedule, block: int) { s.openFromBlock <= block < s.deadlineBlock }

  lemma NextDrawIsNext(currentEpoch: int, interval: int)
    requires interval > 0
    ensures var next := NextDrawEpoch(currentEpoch, interval);
            next % interval == 0 && currentEpoch < next <= currentEpoch + interval
  {
    var q := currentEpoch / interval;
    assert currentEpoch == q * interval + currentEpoch % interval;
    assert (q + 1) * interval == q * interval + interval;
    assert ((q + 1) * interval) % interval == 0 by { FloorUnique((q + 1) * interval, interval, q + 1); }
  }

  lemma WindowBounds(t: Terms)
    requires t.Valid()
    ensures 1 <= JoinWindowBlocks(t) && t.IntervalBlocks() >= 1
    ensures t.IntervalBlocks() >= 2 ==> JoinWindowBlocks(t) < t.IntervalBlocks()
    ensures t.IntervalBlocks() == 1 ==> JoinWindowBlocks(t) == 1
  {
    MulMono(1, t.intervalEpochs, t.epochBlocks);
  }

  /**
   * Successive draws: the window for the later one starts strictly after the earlier one's deadline -
   * at or after the earlier launch boundary - exactly when the interval spans at least two blocks,
   * so no block is ever in both windows.
   */
  lemma SuccessiveWindowsAreDisjoint(t: Terms, epoch: int, later: int)
    requires t.Valid() && t.genesisBlock >= 0 && epoch >= 0
    requires later == NextDrawEpoch(epoch, t.intervalEpochs)
    ensures var s1, s2 := DrawSchedule(t, epoch), DrawSchedule(t, later);
            && s1.nextEpoch == later && s2.nextEpoch == later + t.intervalEpochs
            && (forall b :: !(InJoinWindow(s1, b) && InJoinWindow(s2, b)))
            && (GetEpochStartBlock(later, t.epochBlocks, t.genesisBlock) <= s2.openFromBlock <==> t.IntervalBlocks() >= 2)
  {
    WindowBounds(t);
    NextDrawIsNext(epoch, t.intervalEpochs);
    NextDrawStep(epoch, t.intervalEpochs);
    DrawStartStep(later, t);
    MulMono(1, later, t.epochBlocks);
    WindowsApart(t, DrawSchedule(t, epoch), DrawSchedule(t, later));
  }

  lemma NextDrawStep(epoch: int, interval: int)
    requires interval > 0
    ensures NextDrawEpoch(NextDrawEpoch(epoch, interval), interval) == NextDrawEpoch(epoch, interval) + interval
  {
    var q := epoch / interval + 1;
    FloorUnique(q * interval, interval, q);
    assert (q + 1) * interval == q * interval + interval;
  }

  lemma DrawStartStep(epoch: int, t: Terms)
    ensures GetEpochStartBlock(epoch + t.intervalEpochs, t.epochBlocks, t.genesisBlock)
            == GetEpochStartBlock(epoch, t.epochBlocks, t.genesisBlock) + t.IntervalBlocks()
  {
    assert (epoch + t.intervalEpochs) * t.epochBlocks == epoch * t.epochBlocks + t.intervalEpochs * t.epochBlocks;
  }

  lemma WindowsApart(t: Terms, s1: Schedule, s2: Schedule)
    requires 1 <= JoinWindowBlocks(t) == s1.joinWindowBlocks == s2.joinWindowBlocks && t.IntervalBlocks() >= 1
    requires s1.deadlineBlock >= 0 && s2.deadlineBlock == s1.deadlineBlock + t.IntervalBlocks()
    requires s2.openFromBlock == Max(0, s2.deadlineBlock - s2.joinWindowBlocks)
    requires t.IntervalBlocks() >= 2 ==> s2.joinWindowBlocks < t.IntervalBlocks()
    requires t.IntervalBlocks() == 1 ==> s2.joinWindowBlocks == 1
    ensures forall b :: !(InJoinWindow(s1, b) && InJoinWindow(s2, b))
    ensures s1.deadlineBlock + 1 <= s2.openFromBlock <==> t.IntervalBlocks() >= 2
  {
  }
}
