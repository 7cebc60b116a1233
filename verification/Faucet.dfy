/** The faucet's drips, interleaved at their awaits: never two sends in flight to one wallet, never two within the cooldown. */
module Faucet {
  import opened Options
  import opened EventLog

  /** Forty hex digits after `0x`; any capitals must spell the wallet's checksum, which is taken as given. */
  predicate IsWallet(address: string, checksummed: bool) {
    && |address| == 42 && address[..2] == "0x" && (forall i :: 2 <= i < 42 ==> IsHexDigit(address[i]))
    && (LowerCase(address) == address || checksummed)
  }

  /** Where a call is suspended. */
  datatype Phase = AwaitsHistory | AwaitsBalance | AwaitsSend

  /** A drip between two of its segments; `startedAt` is when it passed the cooldown check. */
  datatype Pending = Pending(id: string, phase: Phase, startedAt: int)

  datatype Answer =
    | NotAnAddress | NotAvailable | OnItsWay | TooSoon(retryAtMs: int) | FaucetEmpty | Dripped(retryAtMs: int) | Fault
    | Suspended(call: nat)

  /** A send that came back: the transaction is broadcast. */
  datatype Drip = Drip(id: string, at: int)

  /** What an await may come back with: a value, or a throw. */
  datatype Outcome<T> = Value(value: T) | Threw

  /** One atomic segment of some call, at some time. */
  datatype Segment =
    | Request(address: string, checksummed: bool, nowMs: int)
    | HistoryCame(call: nat, previous: Outcome<Option<int>>, nowMs: int)
    | BalanceCame(call: nat, balance: Outcome<int>, nowMs: int)
    | SendCame(call: nat, sent: Outcome<bool>, nowMs: int)

  /** Entries at least as recent as the cutoff. */
  function Kept(recent: map<string, int>, cutoff: int): map<string, int> {
    map k | k in recent && recent[k] >= cutoff :: recent[k]
  }

  method Prune(recent: map<string, int>, cutoff: int) returns (kept: map<string, int>)
    ensures kept == Kept(recent, cutoff)
  {
    kept := recent;
    var left := recent.Keys;
    while left != {}
      invariant left <= recent.Keys && kept.Keys <= recent.Keys
      invariant forall k :: k in recent ==> (k in kept <==> k in left || recent[k] >= cutoff)
      invariant forall k :: k in kept ==> kept[k] == recent[k]
      decreases left
    {
      var key: string :| key in left;
      left := left - {key};
      if recent[key] < cutoff {
        kept := kept - {key};
      }
    }
    assert kept == Kept(recent, cutoff);
  }

  /** Drips in the order they were made, each wallet's further apart than the cooldown. */
  ghost predicate Spaced(drips: seq<Drip>, cooldownMs: int) {
    && (forall i, j :: 0 <= i < j < |drips| ==> drips[i].at <= drips[j].at)
    && (forall i, j :: 0 <= i < j < |drips| && drips[i].id == drips[j].id ==> drips[i].at + cooldownMs < drips[j].at)
  }

  /** Every past drip to this wallet is older than the cooldown at `when`. */
  ghost predicate Rested(drips: seq<Drip>, id: string, cooldownMs: int, when: int) {
    forall d :: d in drips && d.id == id ==> d.at + cooldownMs < when
  }

  /** The memory is never shorter than the cooldown: a drip it no longer holds has expired. */
  ghost predicate Remembers(recent: map<string, int>, drips: seq<Drip>, cooldownMs: int, clock: int) {
    forall d :: d in drips ==> d.at + cooldownMs < clock || (d.id in recent && recent[d.id] >= d.at)
  }

  /** Pruning forgets nothing that still counts. */
  lemma PruningIsSafe(recent: map<string, int>, drips: seq<Drip>, cooldownMs: int, now: int)
    requires Remembers(recent, drips, cooldownMs, now)
    ensures Remembers(Kept(recent, now - cooldownMs), drips, cooldownMs, now)
  {
  }

  type Calls = map<nat, Pending>

  predicate WaitsFor(p: Pending, id: string) { p.id == id }

  /** A wallet is marked exactly while one call for it is waiting, and never two are. */
  ghost predicate Tracked(calls: Calls, inFlight: set<string>, nextCall: nat) {
    && (forall c :: c in calls ==> c < nextCall)
    && (forall c, d :: c in calls && d in calls && WaitsFor(calls[c], calls[d].id) ==> c == d)
    && (forall id :: id in inFlight <==> exists c :: c in calls && WaitsFor(calls[c], id))
  }

  /** Each waiting call's wallet had rested when the call began. */
  ghost predicate AllRested(calls: Calls, drips: seq<Drip>, cooldownMs: int, clock: int) {
    forall c :: c in calls ==> calls[c].startedAt <= clock && Rested(drips, calls[c].id, cooldownMs, calls[c].startedAt)
  }

  lemma BeginTracks(calls: Calls, inFlight: set<string>, nextCall: nat, id: string, at: int)
    requires Tracked(calls, inFlight, nextCall) && id !in inFlight
    ensures Tracked(calls[nextCall := Pending(id, AwaitsHistory, at)], inFlight + {id}, nextCall + 1)
  {
    var more := calls[nextCall := Pending(id, AwaitsHistory, at)];
    assert WaitsFor(more[nextCall], id);
    forall c, d | c in more && d in more && WaitsFor(more[c], more[d].id)
      ensures c == d
    {
      if c != nextCall { assert WaitsFor(calls[c], calls[c].id); }
      if d != nextCall { assert WaitsFor(calls[d], calls[d].id); }
    }
    forall i | i in inFlight + {id}
      ensures exists c :: c in more && WaitsFor(more[c], i)
    {
      if i != id {
        var c :| c in calls && WaitsFor(calls[c], i);
        assert WaitsFor(more[c], i);
      }
    }
    forall i | exists c :: c in more && WaitsFor(more[c], i)
      ensures i in inFlight + {id}
    {
      var c :| c in more && WaitsFor(more[c], i);
      if c != nextCall { assert WaitsFor(calls[c], i); }
    }
  }

  lemma BeginRests(calls: Calls, drips: seq<Drip>, cooldownMs: int, nextCall: nat, id: string, now: int)
    requires AllRested(calls, drips, cooldownMs, now) && Rested(drips, id, cooldownMs, now)
    ensures AllRested(calls[nextCall := Pending(id, AwaitsHistory, now)], drips, cooldownMs, now)
  {
  }

  lemma UnusedCall(calls: Calls, inFlight: set<string>, nextCall: nat)
    requires Tracked(calls, inFlight, nextCall)
    ensures nextCall !in calls
  {
  }

  lemma PhaseTracks(calls: Calls, inFlight: set<string>, nextCall: nat, call: nat, phase: Phase)
    requires Tracked(calls, inFlight, nextCall) && call in calls
    ensures Tracked(calls[call := calls[call].(phase := phase)], inFlight, nextCall)
  {
    var more := calls[call := calls[call].(phase := phase)];
    assert forall c, i :: c in calls ==> (WaitsFor(more[c], i) <==> WaitsFor(calls[c], i));
  }

  lemma FinishTracks(calls: Calls, inFlight: set<string>, nextCall: nat, call: nat)
    requires Tracked(calls, inFlight, nextCall) && call in calls
    ensures Tracked(calls - {call}, inFlight - {calls[call].id}, nextCall)
  {
    var fewer := calls - {call};
    forall i | i in inFlight - {calls[call].id}
      ensures exists c :: c in fewer && WaitsFor(fewer[c], i)
    {
      var c :| c in calls && WaitsFor(calls[c], i);
      assert WaitsFor(fewer[c], i);
    }
    forall i | exists c :: c in fewer && WaitsFor(fewer[c], i)
      ensures i in inFlight - {calls[call].id}
    {
      var c :| c in fewer && WaitsFor(fewer[c], i);
      assert WaitsFor(calls[c], i);
    }
  }

  /** A drip by one call: spaced from that wallet's past, and no business of the calls that are left. */
  lemma DripSpaces(calls: Calls, inFlight: set<string>, nextCall: nat, drips: seq<Drip>, cooldownMs: int, clock: int,
                   call: nat, now: int)
    requires Tracked(calls, inFlight, nextCall) && AllRested(calls, drips, cooldownMs, clock) && call in calls
    requires clock <= now
    requires Spaced(drips, cooldownMs) && forall d :: d in drips ==> d.at <= clock
    ensures Spaced(drips + [Drip(calls[call].id, now)], cooldownMs)
    ensures AllRested(calls - {call}, drips + [Drip(calls[call].id, now)], cooldownMs, now)
  {
    var more := drips + [Drip(calls[call].id, now)];
    forall i, j | 0 <= i < j < |more| && more[i].id == more[j].id
      ensures more[i].at + cooldownMs < more[j].at
    {
      if j == |drips| { assert drips[i] in drips; }
    }
    forall c | c in calls - {call}
      ensures Rested(more, calls[c].id, cooldownMs, calls[c].startedAt)
    {
      assert WaitsFor(calls[call], calls[call].id);
      assert !WaitsFor(calls[c], calls[call].id);
    }
  }

  /** Having paid, the memory holds the payment; what it held of others stays. */
  lemma PayingIsRemembered(recent: map<string, int>, drips: seq<Drip>, cooldownMs: int, clock: int, id: string,
                           now: int)
    requires Remembers(recent, drips, cooldownMs, clock) && clock <= now && forall d :: d in drips ==> d.at <= clock
    ensures Remembers(recent[id := now], drips + [Drip(id, now)], cooldownMs, now)
  {
  }

  /** The explorer's answer may overwrite the memory: the call only got that far because the wallet had rested. */
  lemma OverwritingIsSafe(recent: map<string, int>, drips: seq<Drip>, cooldownMs: int, clock: int, id: string, at: int,
                          started: int)
    requires Remembers(recent, drips, cooldownMs, clock) && Rested(drips, id, cooldownMs, started) && started <= clock
    ensures Remembers(recent[id := at], drips, cooldownMs, clock)
  {
  }

  lemma Later(calls: Calls, recent: map<string, int>, drips: seq<Drip>, cooldownMs: int, clock: int, now: int)
    requires AllRested(calls, drips, cooldownMs, clock) && Remembers(recent, drips, cooldownMs, clock) && clock <= now
    ensures AllRested(calls, drips, cooldownMs, now) && Remembers(recent, drips, cooldownMs, now)
  {
  }

  /** Passing the check in memory means the wallet has rested. */
  lemma NotRecentMeansRested(recent: map<string, int>, drips: seq<Drip>, cooldownMs: int, clock: int, id: string,
                             now: int)
    requires Remembers(recent, drips, cooldownMs, clock) && clock <= now
    requires id in recent ==> recent[id] < now - cooldownMs
    ensures Rested(drips, id, cooldownMs, now)
  {
  }

  class FaucetService {
    const enabled: bool
    const cooldownMs: int
    const dripWei: int

    var recent: map<string, int>
    var inFlight: set<string>
    var calls: Calls
    var nextCall: nat
    ghost var clock: int
    ghost var drips: seq<Drip>

    ghost predicate Valid()
      reads this
    {
      && Tracked(calls, inFlight, nextCall)
      && Spaced(drips, cooldownMs) && (forall d :: d in drips ==> d.at <= clock)
      && Remembers(recent, drips, cooldownMs, clock)
      && AllRested(calls, drips, cooldownMs, clock)
    }

    constructor (enabled: bool, cooldownMs: int, dripWei: int)
      requires cooldownMs >= 0
      ensures Valid() && drips == [] && calls == map[] && this.cooldownMs == cooldownMs
    {
      this.enabled, this.cooldownMs, this.dripWei := enabled, cooldownMs, dripWei;
      recent, inFlight, calls, nextCall := map[], {}, map[], 0;
      clock, drips := 0, [];
    }

    /** When this process last paid the wallet, if that is inside the cooldown. */
    function RecentDrip(id: string, nowMs: int): Option<int>
      reads this`recent
    {
      if id in recent && recent[id] >= nowMs - cooldownMs then Some(recent[id]) else None
    }

    /** Up to the first await: refused at once, or suspended with the wallet marked. */
    method Begin(address: string, checksummed: bool, nowMs: int) returns (a: Answer)
      requires Valid() && nowMs >= clock
      modifies this
      ensures Valid() && drips == old(drips) && clock == nowMs
      ensures a.Suspended? <==> IsWallet(address, checksummed) && enabled && LowerCase(address) !in old(inFlight)
                                && old(RecentDrip(LowerCase(address), nowMs)).None?
      ensures a.Suspended? ==> calls == old(calls)[a.call := Pending(LowerCase(address), AwaitsHistory, nowMs)]
                               && a.call !in old(calls) && inFlight == old(inFlight) + {LowerCase(address)}
      ensures !a.Suspended? ==> calls == old(calls) && inFlight == old(inFlight)
    {
      hide Tracked, Spaced, Remembers, AllRested, Rested, IsWallet;
      Later(calls, recent, drips, cooldownMs, clock, nowMs);
      clock := nowMs;
      if !IsWallet(address, checksummed) {
        return NotAnAddress;
      }
      if !enabled {
        return NotAvailable;
      }
      var id := LowerCase(address);
      if id in inFlight {
        return OnItsWay;
      }
      var remembered := RecentDrip(id, nowMs);
      if remembered.Some? {
        return TooSoon(remembered.value + cooldownMs);
      }
      NotRecentMeansRested(recent, drips, cooldownMs, old(clock), id, nowMs);
      UnusedCall(calls, inFlight, nextCall);
      BeginTracks(calls, inFlight, nextCall, id, nowMs);
      BeginRests(calls, drips, cooldownMs, nextCall, id, nowMs);
      inFlight := inFlight + {id};
      calls := calls[nextCall := Pending(id, AwaitsHistory, nowMs)];
      a := Suspended(nextCall);
      nextCall := nextCall + 1;
    }

    /** The `finally`: the call is over and its wallet is free. */
    method Finish(call: nat)
      requires Valid() && call in calls
      modifies this`calls, this`inFlight
      ensures Valid() && call !in calls && calls == old(calls) - {call}
      ensures inFlight == old(inFlight) - {old(calls)[call].id}
    {
      FinishTracks(calls, inFlight, nextCall, call);
      inFlight := inFlight - {calls[call].id};
      calls := calls - {call};
    }

    /** The explorer answered: paid lately, never, or not at all. */
    method AfterHistory(call: nat, previous: Outcome<Option<int>>, nowMs: int) returns (a: Answer)
      requires Valid() && nowMs >= clock && call in calls && calls[call].phase == AwaitsHistory
      modifies this
      ensures Valid() && drips == old(drips) && clock == nowMs
      ensures a.Suspended? <==> previous == Value(None)
    {
      clock := nowMs;
      var id := calls[call].id;
      if previous.Threw? {
        Finish(call);
        return Fault;
      }
      if previous.value.Some? {
        OverwritingIsSafe(recent, drips, cooldownMs, clock, id, previous.value.value, calls[call].startedAt);
        recent := recent[id := previous.value.value];
        Finish(call);
        return TooSoon(previous.value.value + cooldownMs);
      }
      PhaseTracks(calls, inFlight, nextCall, call, AwaitsBalance);
      calls := calls[call := calls[call].(phase := AwaitsBalance)];
      a := Suspended(call);
    }

    method AfterBalance(call: nat, balance: Outcome<int>, nowMs: int) returns (a: Answer)
      requires Valid() && nowMs >= clock && call in calls && calls[call].phase == AwaitsBalance
      modifies this
      ensures Valid() && drips == old(drips) && clock == nowMs
      ensures a.Suspended? <==> balance.Value? && balance.value >= dripWei
    {
      clock := nowMs;
      if balance.Threw? {
        Finish(call);
        return Fault;
      }
      if balance.value < dripWei {
        Finish(call);
        return FaucetEmpty;
      }
      PhaseTracks(calls, inFlight, nextCall, call, AwaitsSend);
      calls := calls[call := calls[call].(phase := AwaitsSend)];
      a := Suspended(call);
    }

    /** The send came back: the drip is recorded before anything else can run for this wallet. */
    method AfterSend(call: nat, sent: Outcome<bool>, nowMs: int) returns (a: Answer)
      requires Valid() && nowMs >= clock && call in calls && calls[call].phase == AwaitsSend
      modifies this
      ensures Valid() && clock == nowMs
      ensures drips == if sent.Value? then old(drips) + [Drip(old(calls)[call].id, nowMs)] else old(drips)
      ensures a == if sent.Value? then Dripped(nowMs + cooldownMs) else Fault
    {
      hide Tracked, Spaced, Remembers, AllRested, Kept;
      Later(calls, recent, drips, cooldownMs, clock, nowMs);
      clock := nowMs;
      var id := calls[call].id;
      if sent.Threw? {
        Finish(call);
        return Fault;
      }
      DripSpaces(calls, inFlight, nextCall, drips, cooldownMs, old(clock), call, nowMs);
      PayingIsRemembered(recent, drips, cooldownMs, old(clock), id, nowMs);
      FinishTracks(calls, inFlight, nextCall, call);
      recent := recent[id := nowMs];
      drips := drips + [Drip(id, nowMs)];
      PruningIsSafe(recent, drips, cooldownMs, nowMs);
      recent := Prune(recent, nowMs - cooldownMs);
      inFlight := inFlight - {id};
      calls := calls - {call};
      a := Dripped(nowMs + cooldownMs);
    }

    /** At most one call per wallet is anywhere between its first segment and its last - so at most one is sending. */
    lemma OneSendPerWallet(c: nat, d: nat)
      requires Valid() && c in calls && d in calls && calls[c].id == calls[d].id
      requires calls[c].phase == AwaitsSend && calls[d].phase == AwaitsSend
      ensures c == d
    {
      assert WaitsFor(calls[c], calls[d].id);
    }

    /** Whichever segment runs next; one of a call that is not waiting there does nothing. */
    method Step(s: Segment)
      requires Valid() && s.nowMs >= clock
      modifies this
      ensures Valid() && old(drips) <= drips && clock <= s.nowMs
    {
      hide Valid;
      var a: Answer := Fault;
      match s {
        case Request(address, checksummed, nowMs) => a := Begin(address, checksummed, nowMs);
        case HistoryCame(call, previous, nowMs) =>
          if call in calls && calls[call].phase == AwaitsHistory { a := AfterHistory(call, previous, nowMs); }
        case BalanceCame(call, balance, nowMs) =>
          if call in calls && calls[call].phase == AwaitsBalance { a := AfterBalance(call, balance, nowMs); }
        case SendCame(call, sent, nowMs) =>
          if call in calls && calls[call].phase == AwaitsSend { a := AfterSend(call, sent, nowMs); }
      }
    }

    /** Any interleaving of any calls' segments, under a clock that never goes back. */
    method Run(schedule: seq<Segment>)
      requires Valid() && (forall i :: 0 <= i < |schedule| ==> clock <= schedule[i].nowMs)
      requires forall i, j :: 0 <= i < j < |schedule| ==> schedule[i].nowMs <= schedule[j].nowMs
      modifies this
      ensures Valid() && Spaced(drips, cooldownMs) && old(drips) <= drips
    {
      for n := 0 to |schedule|
        invariant Valid() && old(drips) <= drips
        invariant forall i :: n <= i < |schedule| ==> clock <= schedule[i].nowMs
      {
        Step(schedule[n]);
      }
    }
  }
}
