/** The windowed reader: whatever fails and however it is cut, each block's logs are folded once, in order. */
module IndexerService {
  import opened Options
  import opened EventLog
  import Ledger = PlayerLedger
  import Directory = LobbyDirectory

  /** The finalised log of each block; what the node answers for a window is these, concatenated. */
  type Source = int -> seq<IndexedEvent>

  /** The logs of the blocks `from` up to but not including `end`, once each, in order. */
  ghost function LogsIn(source: Source, from: int, end: int): seq<IndexedEvent>
    decreases end - from
  {
    if from >= end then [] else LogsIn(source, from, end - 1) + source(end - 1)
  }

  /** Where a stretch of blocks is cut into windows does not matter. */
  lemma {:induction false} WindowsJoin(source: Source, from: int, mid: int, end: int)
    requires from <= mid <= end
    ensures LogsIn(source, from, mid) + LogsIn(source, mid, end) == LogsIn(source, from, end)
    decreases end - mid
  {
    if mid < end { WindowsJoin(source, from, mid, end - 1); }
  }

  /**
   * What the outside world does during one tick: the head, if it could be read; whether the window starting at a block
   * comes back; whether the process is still alive when it gets there; and what contract reads enriched.
   */
  datatype Tick = Tick(head: Option<int>, comesBack: int -> bool, aliveAt: int -> bool, enriched: seq<(string, Directory.Facts)>)

  /** The last block of the window that starts at `cursor`. */
  function WindowEnd(cursor: int, windowBlocks: int, target: int): int {
    if cursor + windowBlocks - 1 > target then target else cursor + windowBlocks - 1
  }

  /** A window moves the cursor on exactly when it spans at least a block, and never past the confirmed head. */
  lemma WindowAdvancesIff(cursor: int, windowBlocks: int, target: int)
    requires cursor <= target
    ensures WindowEnd(cursor, windowBlocks, target) + 1 > cursor <==> windowBlocks >= 1
    ensures WindowEnd(cursor, windowBlocks, target) <= target
  {
  }

  class IndexerService {
    const source: Source
    const fromBlock: int
    const windowBlocks: int
    const confirmations: int
    const ledger: Ledger.PlayerLedger
    const directory: Directory.LobbyDirectory

    var cursor: int
    var alive: bool
    var sweeping: bool
    var indexedThroughBlock: Option<int>
    var caughtUp: bool
    var failed: bool

    /** Both folds hold exactly the logs of the blocks behind the cursor. */
    ghost predicate Valid()
      reads this, ledger, directory
    {
      && windowBlocks >= 1 && fromBlock <= cursor
      && ledger.Valid() && directory.Valid()
      && ledger.log == LogsIn(source, fromBlock, cursor) && directory.log == LogsIn(source, fromBlock, cursor)
      && indexedThroughBlock == (if cursor == fromBlock then None else Some(cursor - 1))
    }

    constructor (source: Source, fromBlock: int, windowBlocks: int, confirmations: int)
      requires windowBlocks >= 1
      ensures Valid() && cursor == fromBlock && !sweeping && fresh(ledger) && fresh(directory)
      ensures this.source == source && this.fromBlock == fromBlock && this.confirmations == confirmations
    {
      this.source, this.fromBlock, this.windowBlocks, this.confirmations := source, fromBlock, windowBlocks, confirmations;
      ledger := new Ledger.PlayerLedger();
      directory := new Directory.LobbyDirectory();
      cursor, alive, sweeping := fromBlock, true, false;
      indexedThroughBlock, caughtUp, failed := None, false, false;
    }

    /** One window of logs into both folds, in the order the chain wrote them. */
    method Fold(from: int, to: int)
      requires ledger.Valid() && directory.Valid() && from <= to
      modifies ledger, directory
      ensures ledger.Valid() && directory.Valid()
      ensures ledger.log == old(ledger.log) + LogsIn(source, from, to + 1)
      ensures directory.log == old(directory.log) + LogsIn(source, from, to + 1)
    {
      hide Ledger.PlayerLedger.Valid, Directory.LobbyDirectory.Valid;
      for block := from to to + 1
        invariant ledger.Valid() && directory.Valid()
        invariant ledger.log == old(ledger.log) + LogsIn(source, from, block)
        invariant directory.log == old(directory.log) + LogsIn(source, from, block)
      {
        var logs := source(block);
        ghost var before := LogsIn(source, from, block);
        for i := 0 to |logs|
          invariant ledger.Valid() && directory.Valid()
          invariant ledger.log == old(ledger.log) + before + logs[..i]
          invariant directory.log == old(directory.log) + before + logs[..i]
        {
          ledger.Apply(logs[i]);
          directory.Apply(logs[i]);
          assert logs[..i + 1] == logs[..i] + [logs[i]];
        }
        assert logs[..|logs|] == logs;
      }
    }

    /** The sweep as one tick runs it. False when it threw: the head or a window did not come back. */
    method Sweep(tick: Tick) returns (ok: bool)
      requires Valid()
      modifies this, ledger, directory
      ensures Valid() && sweeping == old(sweeping)
      ensures old(cursor) <= cursor
      ensures tick.head.None? ==> cursor == old(cursor)
      ensures tick.head.Some? ==> cursor <= old(cursor) || cursor <= tick.head.value - confirmations + 1
      ensures ok && tick.head.Some? && !old(sweeping) && (forall b :: tick.aliveAt(b)) ==> cursor > tick.head.value - confirmations
      ensures old(sweeping) ==> cursor == old(cursor)
    {
      hide Ledger.PlayerLedger.Valid, Directory.LobbyDirectory.Valid;
      if sweeping {
        return true;
      }
      sweeping := true;
      ok := SweepOnce(tick);
      sweeping := false;
    }

    method SweepOnce(tick: Tick) returns (ok: bool)
      requires Valid() && sweeping
      modifies this, ledger, directory
      ensures Valid() && sweeping
      ensures old(cursor) <= cursor
      ensures tick.head.None? ==> cursor == old(cursor) && !ok
      ensures tick.head.Some? ==> cursor <= old(cursor) || cursor <= tick.head.value - confirmations + 1
      ensures ok && tick.head.Some? && (forall b :: tick.aliveAt(b)) ==> cursor > tick.head.value - confirmations
    {
      hide Ledger.PlayerLedger.Valid, Directory.LobbyDirectory.Valid;
      if tick.head.None? {
        return false;
      }
      var target := tick.head.value - confirmations;
      if target < cursor {
        caughtUp := true;
        return true;
      }
      while tick.aliveAt(cursor) && cursor <= target
        invariant Valid() && sweeping
        invariant old(cursor) <= cursor && (cursor == old(cursor) || cursor <= target + 1)
        decreases target - cursor
      {
        if !tick.comesBack(cursor) {
          return false;
        }
        ReadWindow(target);
      }
      RefreshLive(tick.enriched);
      caughtUp := true;
      ok := true;
    }

    /** One window that came back: folded, and only then is the cursor moved past it. */
    method ReadWindow(target: int)
      requires Valid() && cursor <= target
      modifies this`cursor, this`indexedThroughBlock, ledger, directory
      ensures Valid() && old(cursor) < cursor <= target + 1
    {
      hide Ledger.PlayerLedger.Valid, Directory.LobbyDirectory.Valid;
      var to := WindowEnd(cursor, windowBlocks, target);
      WindowAdvancesIff(cursor, windowBlocks, target);
      WindowsJoin(source, fromBlock, cursor, to + 1);
      Fold(cursor, to);
      cursor := to + 1;
      indexedThroughBlock := Some(to);
    }

    /** Contract reads touch only the figures no event defines. */
    method RefreshLive(facts: seq<(string, Directory.Facts)>)
      requires directory.Valid()
      modifies directory
      ensures directory.Valid() && directory.log == old(directory.log)
    {
      hide Directory.LobbyDirectory.Valid;
      for i := 0 to |facts|
        invariant directory.Valid() && directory.log == old(directory.log)
      {
        directory.Enrich(facts[i].0, facts[i].1);
      }
    }

    /**
     * Any number of ticks, any of their reads failing: the cursor never goes back, never passes the confirmed head, and
     * both folds are what folding every block behind it once, in order, gives.
     */
    method Ticks(ticks: seq<Tick>)
      requires Valid() && !sweeping
      modifies this, ledger, directory
      ensures Valid() && !sweeping && old(cursor) <= cursor
      ensures cursor == old(cursor) || exists t :: t in ticks && t.head.Some? && cursor <= t.head.value - confirmations + 1
    {
      hide Ledger.PlayerLedger.Valid, Directory.LobbyDirectory.Valid;
      for i := 0 to |ticks|
        invariant Valid() && !sweeping && old(cursor) <= cursor
        invariant cursor == old(cursor) || exists t :: t in ticks && t.head.Some? && cursor <= t.head.value - confirmations + 1
      {
        ghost var before := cursor;
        var ok := Sweep(ticks[i]);
        failed := !ok;
        assert cursor == before || (ticks[i] in ticks && ticks[i].head.Some? && cursor <= ticks[i].head.value - confirmations + 1);
      }
    }

    /** What is answered about a wallet, and through which block, depends on the folded blocks and nothing else. */
    method RecordFor(address: string) returns (r: Ledger.Record, through: Option<int>)
      requires Valid()
      ensures r == (if Key(address).Some? then Ledger.RecordOf(LogsIn(source, fromBlock, cursor), Key(address).value)
                    else Ledger.Blank(LowerCase(address)))
      ensures through == (if cursor == fromBlock then None else Some(cursor - 1))
    {
      r := ledger.RecordFor(address);
      through := indexedThroughBlock;
    }
  }
}
