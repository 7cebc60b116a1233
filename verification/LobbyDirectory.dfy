/** Every operation ever opened, folded from the log: the newest-first list, its pages and counts, and a wallet's index. */
module LobbyDirectory {
  import opened Options
  import opened Numbers
  import opened EventLog

  type Log = seq<IndexedEvent>

  datatype Status = OpenLobby | ActiveLobby | FinishedLobby | CancelledLobby

  datatype Lobby = Lobby(
    id: string, name: string, creator: string, entryPriceWei: nat, startPrizePoolWei: nat, registrationDeadline: int,
    participants: nat, maxPlayers: Option<int>, minPlayers: Option<int>, rewardPoolWei: Option<nat>, drawBountyWei: Option<nat>,
    status: Status, intercepted: Option<bool>, endedReason: Option<string>, createdBlock: int, startedBlock: Option<int>,
    endedBlock: Option<int>, members: set<string>)

  const PLAYER_PAST_LIMIT := 12
  const PAGE_LIMIT := 200

  // ------------------------------------------------------------ what the log says

  predicate Opens(e: IndexedEvent, id: string) { e.LobbyCreated? && LobbyKey(e.lobbyId) == Some(id) }

  ghost predicate WasOpened(log: Log, id: string) { exists i :: 0 <= i < |log| && Opens(log[i], id) }

  /** An event that names this wallet as the lobby's creator, or as joining it. */
  predicate Enters(e: IndexedEvent, a: string, id: string) {
    LobbyKey(e.lobbyId) == Some(id)
    && ((e.LobbyCreated? && Key(e.creator) == Some(a)) || (e.PlayerJoined? && Key(e.player) == Some(a)))
  }

  /** The wallet created the lobby, or joined it once it was known. */
  ghost predicate Linked(log: Log, a: string, id: string) {
    exists i :: 0 <= i < |log| && Enters(log[i], a, id) && WasOpened(log[..i + 1], id)
  }

  function NewLobby(e: IndexedEvent, id: string): Lobby
    requires e.LobbyCreated?
  {
    Lobby(id, e.name, if Key(e.creator).Some? then Key(e.creator).value else "", e.entryPrice, e.startPrizePool,
          e.registrationDeadline, 0, None, None, None, None, OpenLobby, None, None, e.blockNumber, None, None, {})
  }

  /** What one event does to the lobby it is about. */
  function Changed(l: Lobby, e: IndexedEvent): Lobby {
    match e
    case GlobalDefenseOpened(_, _, pool) => l.(drawBountyWei := Some(pool))
    case PlayerJoined(_, _, player, _, n) =>
      if Key(player).None? then l
      else
        var members := l.members + {Key(player).value};
        l.(members := members, participants := if n != 0 then n else |members|)
    case PlayerLeft(_, _, player, _, n) =>
      if Key(player).None? then l else l.(members := l.members - {Key(player).value}, participants := n)
    case OperationStarted(block, _) => l.(status := ActiveLobby, startedBlock := Some(block))
    case WinnerDetermined(block, _, _, intercepted) =>
      l.(intercepted := Some(intercepted), endedBlock := Some(block),
         status := if l.status == CancelledLobby then CancelledLobby else FinishedLobby)
    case LobbyCancelled(block, _, reason) => l.(status := CancelledLobby, endedBlock := Some(block), endedReason := reason)
    case AttackExpired(block, _, reason) =>
      if l.status == FinishedLobby then l else l.(status := CancelledLobby, endedBlock := Some(block), endedReason := reason)
    case _ => l
  }

  /** The lobby as the whole log defines it. */
  ghost function LobbyOf(log: Log, id: string): Option<Lobby>
    decreases |log|
  {
    if log == [] then None
    else
      var before, e := log[..|log| - 1], log[|log| - 1];
      if Opens(e, id) then Some(NewLobby(e, id))
      else if LobbyKey(e.lobbyId) == Some(id) && LobbyOf(before, id).Some? then Some(Changed(LobbyOf(before, id).value, e))
      else LobbyOf(before, id)
  }

  /** Lobby ids in the order they were first opened. */
  ghost function OpenedIds(log: Log): seq<string>
    decreases |log|
  {
    if log == [] then []
    else
      var before, e := OpenedIds(log[..|log| - 1]), log[|log| - 1];
      if e.LobbyCreated? && LobbyKey(e.lobbyId).Some? && LobbyKey(e.lobbyId).value !in before
      then before + [LobbyKey(e.lobbyId).value] else before
  }

  /** The part of a record that comes from events alone: contract reads blanked, a draw still marked as one. */
  function EventPart(l: Lobby): Lobby {
    l.(maxPlayers := None, minPlayers := None, rewardPoolWei := None, drawBountyWei := if l.drawBountyWei.Some? then Some(0) else None)
  }

  lemma ChangedEventPart(x: Lobby, y: Lobby, e: IndexedEvent)
    requires EventPart(x) == EventPart(y)
    ensures EventPart(Changed(x, e)) == EventPart(Changed(y, e)) && Changed(x, e).id == x.id
  {
  }

  lemma LobbyStep(log: Log, e: IndexedEvent, id: string)
    ensures LobbyOf(log + [e], id)
            == if Opens(e, id) then Some(NewLobby(e, id))
               else if LobbyKey(e.lobbyId) == Some(id) && LobbyOf(log, id).Some? then Some(Changed(LobbyOf(log, id).value, e))
               else LobbyOf(log, id)
    ensures OpenedIds(log + [e])
            == if e.LobbyCreated? && LobbyKey(e.lobbyId).Some? && LobbyKey(e.lobbyId).value !in OpenedIds(log)
               then OpenedIds(log) + [LobbyKey(e.lobbyId).value] else OpenedIds(log)
  {
    hide Changed, NewLobby, LobbyKey;
    assert (log + [e])[..|log|] == log;
  }

  lemma {:induction false} OpenedMeans(log: Log, id: string)
    ensures LobbyOf(log, id).Some? <==> WasOpened(log, id)
    ensures id in OpenedIds(log) <==> WasOpened(log, id)
    decreases |log|
  {
    hide Changed, NewLobby, LobbyKey;
    if log != [] {
      var n := |log| - 1;
      OpenedMeans(log[..n], id);
      if WasOpened(log[..n], id) {
        var i :| 0 <= i < n && Opens(log[..n][i], id);
        assert Opens(log[i], id);
      }
      if WasOpened(log, id) && !Opens(log[n], id) {
        var i :| 0 <= i < |log| && Opens(log[i], id);
        assert Opens(log[..n][i], id);
      }
    }
  }

  predicate NamesDraw(e: IndexedEvent, id: string) { e.GlobalDefenseOpened? && LobbyKey(e.lobbyId) == Some(id) }

  /** The log called the lobby a draw once it was open, and has not opened it anew since. */
  ghost predicate IsDraw(log: Log, id: string) {
    exists i :: 0 <= i < |log| && NamesDraw(log[i], id) && WasOpened(log[..i], id) && forall k :: i < k < |log| ==> !Opens(log[k], id)
  }

  ghost predicate IsLiveDraw(log: Log, id: string) { IsDraw(log, id) && LobbyOf(log, id).Some? && IsLive(LobbyOf(log, id).value) }

  lemma NamingIsNotOpening(e: IndexedEvent, id: string)
    ensures NamesDraw(e, id) ==> !Opens(e, id)
  {
  }

  lemma DrawStep(log: Log, e: IndexedEvent, id: string)
    ensures IsDraw(log + [e], id) <==> !Opens(e, id) && (IsDraw(log, id) || (NamesDraw(e, id) && WasOpened(log, id)))
  {
    hide Opens, WasOpened, NamesDraw;
    var t := log + [e];
    NamingIsNotOpening(e, id);
    assert t[..|log|] == log;
    assert forall i :: 0 <= i < |log| ==> t[i] == log[i] && t[..i] == log[..i];
    if IsDraw(t, id) {
      var i :| 0 <= i < |t| && NamesDraw(t[i], id) && WasOpened(t[..i], id) && forall k :: i < k < |t| ==> !Opens(t[k], id);
      if i < |log| {
        assert forall k :: i < k < |log| ==> log[k] == t[k];
        assert !Opens(t[|log|], id);
        assert NamesDraw(log[i], id) && WasOpened(log[..i], id);
      }
    }
    if !Opens(e, id) && IsDraw(log, id) {
      var i :| 0 <= i < |log| && NamesDraw(log[i], id) && WasOpened(log[..i], id) && forall k :: i < k < |log| ==> !Opens(log[k], id);
      assert NamesDraw(t[i], id) && WasOpened(t[..i], id);
    }
    if NamesDraw(e, id) && WasOpened(log, id) { assert NamesDraw(t[|log|], id) && WasOpened(t[..|log|], id); }
  }

  /** Only the naming of a draw gives a lobby a bounty, and opening it takes none. */
  lemma BountyStep(e: IndexedEvent, id: string, l: Lobby)
    ensures Changed(l, e).drawBountyWei.Some? <==> l.drawBountyWei.Some? || e.GlobalDefenseOpened?
    ensures Opens(e, id) ==> NewLobby(e, id).drawBountyWei.None?
  {
  }

  /** A bounty marks exactly the lobbies the log calls draws. */
  lemma {:induction false} DrawMeans(log: Log, id: string)
    ensures IsDraw(log, id) <==> LobbyOf(log, id).Some? && LobbyOf(log, id).value.drawBountyWei.Some?
    decreases |log|
  {
    hide IsDraw, Changed, NewLobby, LobbyKey, WasOpened, OpenedIds;
    if log == [] {
      NoDraws(id);
    } else {
      var n := |log| - 1;
      var e := log[n];
      assert log == log[..n] + [e];
      DrawMeans(log[..n], id);
      DrawStep(log[..n], e, id);
      LobbyStep(log[..n], e, id);
      OpenedMeans(log[..n], id);
      if LobbyOf(log[..n], id).Some? { BountyStep(e, id, LobbyOf(log[..n], id).value); }
      if Opens(e, id) { BountyStep(e, id, NewLobby(e, id)); }
    }
  }

  lemma NoDraws(id: string)
    ensures !IsDraw([], id)
  {
  }

  lemma SameEventPart(x: Lobby, y: Lobby)
    requires EventPart(x) == EventPart(y)
    ensures x.drawBountyWei.Some? <==> y.drawBountyWei.Some?
    ensures x.status == y.status
  {
  }

  lemma {:induction false} OpenedIdsAreDistinct(log: Log)
    ensures forall i, j :: 0 <= i < j < |OpenedIds(log)| ==> OpenedIds(log)[i] != OpenedIds(log)[j]
    decreases |log|
  {
    hide LobbyKey;
    if log != [] { OpenedIdsAreDistinct(log[..|log| - 1]); }
  }

  lemma LinkedStep(log: Log, e: IndexedEvent, a: string, id: string)
    ensures Linked(log + [e], a, id) <==> Linked(log, a, id) || (Enters(e, a, id) && WasOpened(log + [e], id))
  {
    hide Enters, WasOpened;
    var t := log + [e];
    forall i | 0 <= i < |log|
      ensures t[..i + 1] == log[..i + 1] && t[i] == log[i]
    {
    }
    assert t[..|log| + 1] == t;
    if Linked(log, a, id) {
      var i :| 0 <= i < |log| && Enters(log[i], a, id) && WasOpened(log[..i + 1], id);
      assert Enters(t[i], a, id) && WasOpened(t[..i + 1], id);
    }
    if Enters(e, a, id) && WasOpened(t, id) {
      assert Enters(t[|log|], a, id) && WasOpened(t[..|log| + 1], id);
    }
  }

  // ------------------------------------------------------------- newest first

  /** Behind everything at least as new: equals stay in their order. */
  function InsertNewest(xs: seq<Lobby>, l: Lobby): seq<Lobby> {
    if xs == [] then [l]
    else if xs[0].createdBlock >= l.createdBlock then [xs[0]] + InsertNewest(xs[1..], l)
    else [l] + xs
  }

  function NewestFirst(xs: seq<Lobby>): seq<Lobby> {
    if xs == [] then [] else InsertNewest(NewestFirst(xs[..|xs| - 1]), xs[|xs| - 1])
  }

  ghost predicate IsNewestFirst(xs: seq<Lobby>) {
    forall i, j :: 0 <= i < j < |xs| ==> xs[i].createdBlock >= xs[j].createdBlock
  }

  function OfBlock(xs: seq<Lobby>, block: int): seq<Lobby> {
    if xs == [] then []
    else if xs[0].createdBlock == block then [xs[0]] + OfBlock(xs[1..], block) else OfBlock(xs[1..], block)
  }

  lemma {:induction false} InsertKeepsRows(xs: seq<Lobby>, l: Lobby)
    ensures multiset(InsertNewest(xs, l)) == multiset(xs) + multiset{l}
  {
    if xs != [] && xs[0].createdBlock >= l.createdBlock {
      InsertKeepsRows(xs[1..], l);
      assert xs == [xs[0]] + xs[1..];
    }
  }

  lemma {:induction false} InsertKeepsOrder(xs: seq<Lobby>, l: Lobby)
    requires IsNewestFirst(xs)
    ensures IsNewestFirst(InsertNewest(xs, l))
    ensures xs != [] && xs[0].createdBlock >= l.createdBlock ==> InsertNewest(xs, l)[0] == xs[0]
    ensures xs == [] || xs[0].createdBlock < l.createdBlock ==> InsertNewest(xs, l)[0] == l
  {
    if |xs| > 1 && xs[0].createdBlock >= l.createdBlock {
      InsertKeepsOrder(xs[1..], l);
    }
  }

  lemma {:induction false} InsertKeepsTies(xs: seq<Lobby>, l: Lobby, block: int)
    requires IsNewestFirst(xs)
    ensures OfBlock(InsertNewest(xs, l), block) == OfBlock(xs, block) + if l.createdBlock == block then [l] else []
  {
    if xs != [] && xs[0].createdBlock >= l.createdBlock {
      InsertKeepsTies(xs[1..], l, block);
      assert ([xs[0]] + InsertNewest(xs[1..], l))[1..] == InsertNewest(xs[1..], l);
    } else if xs != [] {
      NoneNewer(xs, block, l.createdBlock);
      assert ([l] + xs)[1..] == xs;
    }
  }

  /** In a newest-first list whose head is older, nothing is as new. */
  lemma {:induction false} NoneNewer(xs: seq<Lobby>, block: int, newer: int)
    requires xs != [] && IsNewestFirst(xs) && xs[0].createdBlock < newer
    ensures block == newer ==> OfBlock(xs, block) == []
  {
    if |xs| > 1 { NoneNewer(xs[1..], block, newer); }
  }

  lemma {:induction false} OfBlockSplits(xs: seq<Lobby>, ys: seq<Lobby>, block: int)
    ensures OfBlock(xs + ys, block) == OfBlock(xs, block) + OfBlock(ys, block)
  {
    if xs == [] {
      assert xs + ys == ys;
    } else {
      OfBlockSplits(xs[1..], ys, block);
      assert (xs + ys)[1..] == xs[1..] + ys;
    }
  }

  lemma JustOne(l: Lobby, block: int)
    ensures OfBlock([l], block) == if l.createdBlock == block then [l] else []
  {
  }

  lemma {:induction false} SortingKeepsRows(xs: seq<Lobby>)
    ensures multiset(NewestFirst(xs)) == multiset(xs)
  {
    if xs != [] {
      var n := |xs| - 1;
      hide InsertNewest;
      SortingKeepsRows(xs[..n]);
      InsertKeepsRows(NewestFirst(xs[..n]), xs[n]);
      assert xs[..n] + [xs[n]] == xs;
      assert multiset(xs[..n] + [xs[n]]) == multiset(xs[..n]) + multiset{xs[n]};
    }
  }

  lemma {:induction false} SortingOrders(xs: seq<Lobby>)
    ensures IsNewestFirst(NewestFirst(xs))
  {
    if xs != [] {
      var n := |xs| - 1;
      SortingOrders(xs[..n]);
      InsertKeepsOrder(NewestFirst(xs[..n]), xs[n]);
    }
  }

  lemma {:induction false} SortingKeepsTies(xs: seq<Lobby>, block: int)
    ensures OfBlock(NewestFirst(xs), block) == OfBlock(xs, block)
  {
    if xs != [] {
      var n := |xs| - 1;
      SortingKeepsTies(xs[..n], block);
      SortingOrders(xs[..n]);
      InsertKeepsTies(NewestFirst(xs[..n]), xs[n], block);
      JustOne(xs[n], block);
      OfBlockSplits(xs[..n], [xs[n]], block);
      assert xs == xs[..n] + [xs[n]];
    }
  }

  /** The list is a stable sort by creation block, newest first: same rows, in order, ties as they were. */
  lemma NewestFirstSorts(xs: seq<Lobby>, block: int)
    ensures IsNewestFirst(NewestFirst(xs)) && multiset(NewestFirst(xs)) == multiset(xs)
    ensures OfBlock(NewestFirst(xs), block) == OfBlock(xs, block)
  {
    SortingKeepsRows(xs);
    SortingOrders(xs);
    SortingKeepsTies(xs, block);
  }

  // ------------------------------------------------------------ what is picked out

  /** `ys` is the rows of `xs` at these positions, in the order they stand there. */
  ghost predicate PickedAt(ys: seq<Lobby>, xs: seq<Lobby>, at: seq<nat>) {
    && |at| == |ys|
    && (forall k :: 0 <= k < |at| ==> at[k] < |xs| && ys[k] == xs[at[k]])
    && (forall j, k :: 0 <= j < k < |at| ==> at[j] < at[k])
  }

  lemma PickedOneMore(ys: seq<Lobby>, xs: seq<Lobby>, at: seq<nat>, x: Lobby)
    requires PickedAt(ys, xs, at)
    ensures PickedAt(ys, xs + [x], at) && PickedAt(ys + [x], xs + [x], at + [|xs|])
  {
  }

  lemma PickedPushed(ys: seq<Lobby>, xs: seq<Lobby>, at: seq<nat>, later: seq<nat>, x: Lobby)
    requires PickedAt(ys, xs, at) && |later| == |at| && forall k :: 0 <= k < |at| ==> later[k] == at[k] + 1
    ensures PickedAt(ys, [x] + xs, later)
  {
    forall k | 0 <= k < |at|
      ensures later[k] < |[x] + xs| && ys[k] == ([x] + xs)[later[k]]
    {
      assert ([x] + xs)[at[k] + 1] == xs[at[k]];
    }
  }

  lemma PickedShifts(ys: seq<Lobby>, xs: seq<Lobby>, at: seq<nat>, x: Lobby) returns (later: seq<nat>)
    requires PickedAt(ys, xs, at)
    ensures PickedAt(ys, [x] + xs, later) && PickedAt([x] + ys, [x] + xs, [0] + later)
    ensures forall i: nat :: i + 1 in later <==> i in at
    ensures 0 !in later
  {
    later := seq(|at|, k requires 0 <= k < |at| => at[k] + 1);
    PickedPushed(ys, xs, at, later, x);
    forall i: nat | i in at
      ensures i + 1 in later
    {
      var k :| 0 <= k < |at| && at[k] == i;
      assert later[k] == i + 1;
    }
  }

  lemma {:induction false} OfBlockPicks(xs: seq<Lobby>, block: int) returns (at: seq<nat>)
    ensures PickedAt(OfBlock(xs, block), xs, at)
    ensures forall i: nat :: i < |xs| ==> (i in at <==> xs[i].createdBlock == block)
  {
    at := [];
    if xs != [] {
      var rest := OfBlockPicks(xs[1..], block);
      var later := PickedShifts(OfBlock(xs[1..], block), xs[1..], rest, xs[0]);
      assert xs == [xs[0]] + xs[1..];
      at := if xs[0].createdBlock == block then [0] + later else later;
      hide PickedAt, OfBlock;
      forall i: nat | i < |xs|
        ensures i in at <==> xs[i].createdBlock == block
      {
        if i > 0 {
          var k: nat := i - 1;
          assert xs[1..][k] == xs[i];
          assert k + 1 in later <==> k in rest;
        }
      }
    }
  }

  lemma InTheirOrder(at: seq<nat>, m: nat, n: nat)
    requires m < |at| && n < |at| && at[m] < at[n] && forall j, k :: 0 <= j < k < |at| ==> at[j] < at[k]
    ensures m < n
  {
  }

  /** Rows created in one block stay in the order they came in. */
  lemma TiesKeepTheirOrder(xs: seq<Lobby>, i: nat, j: nat) returns (a: nat, b: nat)
    requires i < j < |NewestFirst(xs)| && NewestFirst(xs)[i].createdBlock == NewestFirst(xs)[j].createdBlock
    ensures a < b < |xs| && xs[a] == NewestFirst(xs)[i] && xs[b] == NewestFirst(xs)[j]
  {
    hide NewestFirst, OfBlock;
    var sorted, block := NewestFirst(xs), NewestFirst(xs)[i].createdBlock;
    SortingKeepsTies(xs, block);
    var at := OfBlockPicks(sorted, block);
    var from := OfBlockPicks(xs, block);
    var m :| 0 <= m < |at| && at[m] == i;
    var n :| 0 <= n < |at| && at[n] == j;
    InTheirOrder(at, m, n);
    assert OfBlock(xs, block)[m] == sorted[i] && OfBlock(xs, block)[n] == sorted[j];
    a, b := from[m], from[n];
  }

  // ----------------------------------------------------------- search and counts

  predicate OccursAt(s: string, i: int, q: string) { 0 <= i <= |s| - |q| && s[i..i + |q|] == q }

  predicate Contains(s: string, q: string) { exists i :: 0 <= i <= |s| && OccursAt(s, i, q) }

  predicate IsFound(l: Lobby,
                    query: string) { query == "" || Contains(LowerCase(l.name), query) || Contains(l.id, query) }

  function Searched(xs: seq<Lobby>, query: string): seq<Lobby> {
    if xs == [] then []
    else if IsFound(xs[|xs| - 1], query) then Searched(xs[..|xs| - 1], query) + [xs[|xs| - 1]] else Searched(xs[..|xs| - 1], query)
  }

  function InStatus(xs: seq<Lobby>, status: Option<Status>): seq<Lobby> {
    if xs == [] then []
    else
      var rest, last := InStatus(xs[..|xs| - 1], status), xs[|xs| - 1];
      if status.None? || last.status == status.value then rest + [last] else rest
  }

  predicate IsListed(l: Lobby, query: string, status: Option<Status>) {
    IsFound(l, query) && (status.None? || l.status == status.value)
  }

  lemma {:induction false} SearchedPicks(xs: seq<Lobby>, query: string) returns (at: seq<nat>)
    ensures PickedAt(Searched(xs, query), xs, at)
    ensures forall i: nat :: i < |xs| ==> (i in at <==> IsFound(xs[i], query))
  {
    hide IsFound;
    at := [];
    if xs != [] {
      var n := |xs| - 1;
      at := SearchedPicks(xs[..n], query);
      PickedOneMore(Searched(xs[..n], query), xs[..n], at, xs[n]);
      assert xs == xs[..n] + [xs[n]];
      if IsFound(xs[n], query) { at := at + [n]; }
    }
  }

  lemma {:induction false} InStatusPicks(xs: seq<Lobby>, status: Option<Status>) returns (at: seq<nat>)
    ensures PickedAt(InStatus(xs, status), xs, at)
    ensures forall i: nat :: i < |xs| ==> (i in at <==> status.None? || xs[i].status == status.value)
  {
    at := [];
    if xs != [] {
      var n := |xs| - 1;
      at := InStatusPicks(xs[..n], status);
      PickedOneMore(InStatus(xs[..n], status), xs[..n], at, xs[n]);
      assert xs == xs[..n] + [xs[n]];
      if status.None? || xs[n].status == status.value { at := at + [n]; }
    }
  }

  /** Search and tab together keep exactly the rows that answer both, each as often as it was there, in their order. */
  lemma ListedPicks(xs: seq<Lobby>, query: string, status: Option<Status>) returns (at: seq<nat>)
    ensures PickedAt(InStatus(Searched(xs, query), status), xs, at)
    ensures forall i: nat :: i < |xs| ==> (i in at <==> IsListed(xs[i], query, status))
  {
    hide IsFound, Searched, InStatus;
    var found := SearchedPicks(xs, query);
    var kept := InStatusPicks(Searched(xs, query), status);
    at := PickedTwice(InStatus(Searched(xs, query), status), Searched(xs, query), xs, kept, found);
    forall i: nat | i < |xs|
      ensures i in at <==> IsListed(xs[i], query, status)
    {
      if i in found {
        var m :| 0 <= m < |found| && found[m] == i;
        assert Searched(xs, query)[m] == xs[i];
      }
    }
  }

  /** Picked out of what was picked out. */
  lemma PickedTwice(zs: seq<Lobby>, ys: seq<Lobby>, xs: seq<Lobby>, kept: seq<nat>, found: seq<nat>) returns (at: seq<nat>)
    requires PickedAt(zs, ys, kept) && PickedAt(ys, xs, found)
    ensures PickedAt(zs, xs, at)
    ensures forall m :: 0 <= m < |found| ==> (found[m] in at <==> m in kept)
    ensures forall i :: i in at ==> i in found
  {
    at := seq(|kept|, k requires 0 <= k < |kept| => found[kept[k]]);
    forall m: nat | m < |found|
      ensures found[m] in at <==> m in kept
    {
      if m in kept {
        var k :| 0 <= k < |kept| && kept[k] == m;
        assert at[k] == found[m];
      }
      if found[m] in at {
        var k :| 0 <= k < |at| && at[k] == found[m];
        SamePlace(found, kept[k], m);
      }
    }
  }

  lemma SamePlace(at: seq<nat>, j: nat, k: nat)
    requires j < |at| && k < |at| && at[j] == at[k] && forall a, b :: 0 <= a < b < |at| ==> at[a] < at[b]
    ensures j == k
  {
  }

  datatype Counts = Counts(inOpen: nat, inActive: nat, inFinished: nat, inCancelled: nat, all: nat) {
    function Of(status: Option<Status>): nat {
      match status
      case None => all
      case Some(OpenLobby) => inOpen
      case Some(ActiveLobby) => inActive
      case Some(FinishedLobby) => inFinished
      case Some(CancelledLobby) => inCancelled
    }
  }

  function CountsOf(xs: seq<Lobby>): Counts {
    Counts(|InStatus(xs, Some(OpenLobby))|, |InStatus(xs, Some(ActiveLobby))|, |InStatus(xs, Some(FinishedLobby))|,
           |InStatus(xs, Some(CancelledLobby))|, |InStatus(xs, None)|)
  }

  /** The four statuses sum to all of them. */
  lemma {:induction false} StatusesSumToAll(xs: seq<Lobby>)
    ensures var c := CountsOf(xs); c.inOpen + c.inActive + c.inFinished + c.inCancelled == c.all == |xs|
  {
    if xs != [] { StatusesSumToAll(xs[..|xs| - 1]); }
  }

  method Tally(xs: seq<Lobby>) returns (c: Counts)
    ensures c == CountsOf(xs)
    ensures c.inOpen + c.inActive + c.inFinished + c.inCancelled == c.all == |xs|
  {
    c := Counts(0, 0, 0, 0, 0);
    for i := 0 to |xs|
      invariant c == CountsOf(xs[..i])
    {
      assert xs[..i + 1][..i] == xs[..i];
      match xs[i].status {
        case OpenLobby => c := c.(inOpen := c.inOpen + 1);
        case ActiveLobby => c := c.(inActive := c.inActive + 1);
        case FinishedLobby => c := c.(inFinished := c.inFinished + 1);
        case CancelledLobby => c := c.(inCancelled := c.inCancelled + 1);
      }
      c := c.(all := c.all + 1);
    }
    assert xs[..|xs|] == xs;
    StatusesSumToAll(xs);
  }

  // ------------------------------------------------------------------- pages

  function Slice(xs: seq<Lobby>, offset: int, limit: int): seq<Lobby>
    requires offset >= 0 && limit >= 0
  {
    xs[Min(offset, |xs|)..Min(offset + limit, |xs|)]
  }

  /** One page of the list, as the options ask for it and the cap allows. */
  function Page(all: seq<Lobby>, offset: int, limit: int): seq<Lobby> {
    Slice(all, Max(0, offset), Max(1, Min(limit, PAGE_LIMIT)))
  }

  /** The pages at `from`, `from + limit`, ... until the list is exhausted. */
  function PagesFrom(all: seq<Lobby>, from: nat, limit: nat): seq<Lobby>
    requires limit > 0
    decreases |all| - from
  {
    if from >= |all| then [] else Page(all, from, limit) + PagesFrom(all, from + limit, limit)
  }

  lemma {:induction false} SmallPagesCover(all: seq<Lobby>, from: nat, limit: nat)
    requires 0 < limit && (limit <= PAGE_LIMIT || |all| - from <= PAGE_LIMIT)
    ensures PagesFrom(all, from, limit) == all[Min(from, |all|)..]
    decreases |all| - from
  {
    if from < |all| {
      SmallPagesCover(all, from + limit, limit);
      assert all[from..] == all[from..Min(from + limit, |all|)] + all[Min(from + limit, |all|)..];
    }
  }

  lemma {:induction false} PagesAreBounded(all: seq<Lobby>, from: nat, limit: nat)
    requires limit > 0
    ensures |PagesFrom(all, from, limit)| <= Max(0, |all| - from)
    decreases |all| - from
  {
    if from < |all| { PagesAreBounded(all, from + limit, limit); }
  }

  /**
   * Turning pages of any positive size gives the whole list, each row once and in order, exactly when a page is no
   * larger than the cap, or the list fits one capped page; otherwise rows are skipped.
   */
  lemma PagesCoverIff(all: seq<Lobby>, limit: nat)
    requires limit > 0
    ensures PagesFrom(all, 0, limit) == all <==> limit <= PAGE_LIMIT || |all| <= PAGE_LIMIT
    ensures limit > PAGE_LIMIT && |all| > PAGE_LIMIT ==> |PagesFrom(all, 0, limit)| < |all|
  {
    if limit <= PAGE_LIMIT || |all| <= PAGE_LIMIT {
      SmallPagesCover(all, 0, limit);
      assert all[0..] == all;
    } else {
      PagesAreBounded(all, limit, limit);
    }
  }

  // ------------------------------------------------------------- each lobby once

  ghost predicate DistinctIds(xs: seq<Lobby>) { forall i, j :: 0 <= i < j < |xs| ==> xs[i].id != xs[j].id }

  ghost predicate RowAt(xs: seq<Lobby>, i: nat, id: string) { i < |xs| && xs[i].id == id }

  /** The lobby is in the list, and at one place only. */
  ghost predicate ListedOnce(xs: seq<Lobby>, id: string) {
    exists i: nat :: RowAt(xs, i, id) && forall j: nat :: RowAt(xs, j, id) ==> j == i
  }

  lemma OnceIfDistinct(xs: seq<Lobby>, l: Lobby)
    requires DistinctIds(xs) && l in xs
    ensures ListedOnce(xs, l.id)
  {
    var i: nat :| i < |xs| && xs[i] == l;
    assert RowAt(xs, i, l.id);
  }

  lemma PickedIsDistinct(ys: seq<Lobby>, xs: seq<Lobby>, at: seq<nat>)
    requires PickedAt(ys, xs, at) && DistinctIds(xs)
    ensures DistinctIds(ys)
  {
    forall i, j | 0 <= i < j < |ys|
      ensures ys[i].id != ys[j].id
    {
      assert at[i] < at[j];
    }
  }

  /** Sorting moves rows about and doubles none of them. */
  lemma SortedIsDistinct(xs: seq<Lobby>)
    requires DistinctIds(xs)
    ensures DistinctIds(NewestFirst(xs)) && forall l :: l in NewestFirst(xs) <==> l in xs
  {
    hide NewestFirst;
    var sorted := NewestFirst(xs);
    SortingKeepsRows(xs);
    forall l
      ensures l in sorted <==> l in xs
    {
      assert l in multiset(sorted) <==> l in multiset(xs);
    }
    forall i, j | 0 <= i < j < |sorted|
      ensures sorted[i].id != sorted[j].id
    {
      if sorted[i].id == sorted[j].id {
        OneOfEach(xs, sorted[i], sorted[j]);
        TwoPlaces(sorted, i, j);
        OnePlace(xs, sorted[i]);
        assert false;
      }
    }
  }

  lemma OneOfEach(xs: seq<Lobby>, x: Lobby, y: Lobby)
    requires DistinctIds(xs) && x in xs && y in xs && x.id == y.id
    ensures x == y
  {
    var i: nat :| i < |xs| && xs[i] == x;
    var j: nat :| j < |xs| && xs[j] == y;
  }

  lemma TwoPlaces(xs: seq<Lobby>, i: nat, j: nat)
    requires i < j < |xs| && xs[i] == xs[j]
    ensures multiset(xs)[xs[i]] >= 2
  {
    assert xs == xs[..j] + xs[j..];
    assert xs[..j][i] == xs[i] && xs[j..][0] == xs[j];
    assert multiset(xs) == multiset(xs[..j]) + multiset(xs[j..]);
  }

  lemma {:induction false} OnePlace(xs: seq<Lobby>, l: Lobby)
    requires DistinctIds(xs)
    ensures multiset(xs)[l] <= 1
  {
    if xs != [] {
      var n := |xs| - 1;
      assert xs == xs[..n] + [xs[n]];
      OnePlace(xs[..n], l);
      if l == xs[n] { assert l !in xs[..n]; }
    }
  }

  /** In the log, one lobby was first opened before another. */
  ghost predicate OpenedBefore(log: Log, x: string, y: string) {
    exists a, b :: 0 <= a < b < |OpenedIds(log)| && OpenedIds(log)[a] == x && OpenedIds(log)[b] == y
  }

  // ------------------------------------------------------------ one wallet's view

  function Filed(lobbies: map<string, Lobby>, ids: seq<string>): seq<Lobby> {
    if ids == [] then []
    else
      var rest, last := Filed(lobbies, ids[..|ids| - 1]), ids[|ids| - 1];
      if last in lobbies then rest + [lobbies[last]] else rest
  }

  predicate IsLive(l: Lobby) { l.status == OpenLobby || l.status == ActiveLobby }

  function LiveOnes(xs: seq<Lobby>, live: bool): seq<Lobby> {
    if xs == [] then []
    else
      var rest, last := LiveOnes(xs[..|xs| - 1], live), xs[|xs| - 1];
      if IsLive(last) == live then rest + [last] else rest
  }

  lemma {:induction false} LiveOnesSplit(xs: seq<Lobby>)
    ensures forall l :: l in LiveOnes(xs, true) <==> l in xs && IsLive(l)
    ensures forall l :: l in LiveOnes(xs, false) <==> l in xs && !IsLive(l)
    ensures multiset(LiveOnes(xs, true)) + multiset(LiveOnes(xs, false)) == multiset(xs)
  {
    if xs != [] {
      var n := |xs| - 1;
      LiveOnesSplit(xs[..n]);
      assert xs == xs[..n] + [xs[n]];
    }
  }

  /** Which of two kinds a row is does not move it: what is picked out keeps its order. */
  lemma {:induction false} LiveOnesPick(xs: seq<Lobby>, live: bool) returns (at: seq<nat>)
    ensures PickedAt(LiveOnes(xs, live), xs, at)
  {
    at := [];
    if xs != [] {
      var n := |xs| - 1;
      at := LiveOnesPick(xs[..n], live);
      PickedOneMore(LiveOnes(xs[..n], live), xs[..n], at, xs[n]);
      assert xs == xs[..n] + [xs[n]];
      if IsLive(xs[n]) == live { at := at + [n]; }
    }
  }

  lemma PickedKeepsOrder(ys: seq<Lobby>, xs: seq<Lobby>, at: seq<nat>)
    requires PickedAt(ys, xs, at) && IsNewestFirst(xs) && DistinctIds(xs)
    ensures IsNewestFirst(ys) && DistinctIds(ys)
  {
    PickedIsDistinct(ys, xs, at);
    forall i, j | 0 <= i < j < |ys|
      ensures ys[i].createdBlock >= ys[j].createdBlock
    {
      assert at[i] < at[j];
    }
  }

  /** The first so many of a newest-first list, and nothing left out is newer than anything kept. */
  lemma FirstAreNewest(xs: seq<Lobby>, n: nat)
    requires IsNewestFirst(xs) && DistinctIds(xs)
    ensures IsNewestFirst(FirstOf(xs, n)) && DistinctIds(FirstOf(xs, n)) && |FirstOf(xs, n)| <= n
    ensures forall l :: l in FirstOf(xs, n) ==> l in xs
    ensures forall l :: l in xs && l !in FirstOf(xs, n) ==>
              |FirstOf(xs, n)| == n && forall k :: k in FirstOf(xs, n) ==> k.createdBlock >= l.createdBlock
  {
  }

  lemma {:induction false} FiledMeans(lobbies: map<string, Lobby>, ids: seq<string>)
    requires forall id :: id in ids ==> id in lobbies
    ensures |Filed(lobbies, ids)| == |ids| && forall i :: 0 <= i < |ids| ==> Filed(lobbies, ids)[i] == lobbies[ids[i]]
  {
    if ids != [] {
      var n := |ids| - 1;
      assert ids == ids[..n] + [ids[n]];
      FiledMeans(lobbies, ids[..n]);
    }
  }

  lemma FiledIsDistinct(lobbies: Rows, ids: seq<string>)
    requires forall id :: id in ids ==> id in lobbies && lobbies[id].id == id
    requires NoRepeats(ids)
    ensures DistinctIds(Filed(lobbies, ids))
    ensures forall l :: l in Filed(lobbies, ids) <==> l.id in ids && l == lobbies[l.id]
  {
    hide Filed;
    FiledMeans(lobbies, ids);
    forall l: Lobby | l.id in ids && l == lobbies[l.id]
      ensures l in Filed(lobbies, ids)
    {
      var i :| 0 <= i < |ids| && ids[i] == l.id;
      assert Filed(lobbies, ids)[i] == l;
    }
  }

  type Rows = map<string, Lobby>

  type Index = map<string, seq<string>>

  predicate InIndex(index: Index, a: string, id: string) { a in index && id in index[a] }

  predicate NoRepeats(ids: seq<string>) { forall i, j :: 0 <= i < j < |ids| ==> ids[i] != ids[j] }

  ghost predicate IndexOk(index: Index) { forall a :: a in index ==> NoRepeats(index[a]) }

  /** Every row moved by exactly what the event is to that lobby. */
  ghost predicate RowsAfter(e: IndexedEvent, before: Rows, after: Rows) {
    forall id ::
      (id in after <==> id in before || Opens(e, id))
      && (id in after ==>
            after[id] == if Opens(e, id) then NewLobby(e, id)
                         else if LobbyKey(e.lobbyId) == Some(id) then Changed(before[id], e) else before[id])
  }

  /** The index gained the wallet the event brings into a known lobby, and nothing else. */
  ghost predicate IndexAfter(e: IndexedEvent, rows: Rows, before: Index, after: Index) {
    IndexOk(after) && forall a, id :: InIndex(after, a, id) <==> InIndex(before, a, id) || (Enters(e, a, id) && id in rows)
  }

  function WithLink(index: Index, a: string, id: string): Index {
    if a in index then (if id in index[a] then index else index[a := index[a] + [id]]) else index[a := [id]]
  }

  lemma WithLinkAdds(index: Index, a: string, id: string)
    requires IndexOk(index)
    ensures IndexOk(WithLink(index, a, id))
    ensures forall b, j :: InIndex(WithLink(index, a, id), b, j) <==> InIndex(index, b, j) || (b == a && j == id)
  {
  }

  lemma LinkedIndex(e: IndexedEvent, rows: Rows, index: Index, a: string, id: string)
    requires IndexOk(index) && id in rows && LobbyKey(e.lobbyId) == Some(id)
    requires forall b :: Enters(e, b, id) <==> b == a
    ensures IndexAfter(e, rows, index, WithLink(index, a, id))
  {
    hide Key, LobbyKey, WithLink, IndexOk, InIndex;
    WithLinkAdds(index, a, id);
    forall b, j
      ensures Enters(e, b, j) ==> j == id
    {
    }
  }

  lemma SameIndex(e: IndexedEvent, rows: Rows, index: Index)
    requires IndexOk(index) && forall a, id :: Enters(e, a, id) ==> id !in rows
    ensures IndexAfter(e, rows, index, index)
  {
    hide Enters;
  }

  lemma ChangedRow(e: IndexedEvent, rows: Rows, id: string)
    requires LobbyKey(e.lobbyId) == Some(id) && !e.LobbyCreated? && id in rows
    ensures RowsAfter(e, rows, rows[id := Changed(rows[id], e)])
  {
    hide Changed, LobbyKey;
  }

  lemma SameRows(e: IndexedEvent, rows: Rows)
    requires !e.LobbyCreated? || LobbyKey(e.lobbyId).None?
    requires LobbyKey(e.lobbyId).None? || LobbyKey(e.lobbyId).value !in rows
             || Changed(rows[LobbyKey(e.lobbyId).value], e) == rows[LobbyKey(e.lobbyId).value]
    ensures RowsAfter(e, rows, rows)
  {
    hide Changed, LobbyKey;
  }

  /** What a contract read brings; absent figures leave the previous answer standing. */
  datatype Facts = Facts(maxPlayers: Option<int>, minPlayers: Option<int>, rewardPoolWei: Option<nat>, drawBountyWei: Option<nat>)

  /** A draw's bounty is only ever taken by what an event named a draw. */
  function Enriched(l: Lobby, f: Facts): Lobby {
    l.(maxPlayers := if f.maxPlayers.Some? then f.maxPlayers else l.maxPlayers,
       minPlayers := if f.minPlayers.Some? then f.minPlayers else l.minPlayers,
       rewardPoolWei := if f.rewardPoolWei.Some? then f.rewardPoolWei else l.rewardPoolWei,
       drawBountyWei := if f.drawBountyWei.Some? && l.drawBountyWei.Some? then f.drawBountyWei else l.drawBountyWei)
  }

  lemma EnrichedKeepsEvents(l: Lobby, f: Facts)
    ensures EventPart(Enriched(l, f)) == EventPart(l) && Enriched(l, f).id == l.id
  {
  }

  datatype PlayerRow = PlayerRow(lobby: Lobby, joined: bool, created: bool)

  function AsPlayerRow(l: Lobby, a: string): PlayerRow { PlayerRow(l, a in l.members, l.creator == a) }

  function AsPlayerRows(xs: seq<Lobby>,
                        a: string): seq<PlayerRow> { seq(|xs|, i requires 0 <= i < |xs| => AsPlayerRow(xs[i], a)) }

  function FirstOf(xs: seq<Lobby>, n: nat): seq<Lobby> { if |xs| <= n then xs else xs[..n] }

  /** Rows of a wallet's view, newest first and no lobby twice. */
  ghost predicate InViewOrder(rows: seq<PlayerRow>) {
    forall i, j :: 0 <= i < j < |rows| ==>
      rows[i].lobby.createdBlock >= rows[j].lobby.createdBlock && rows[i].lobby.id != rows[j].lobby.id
  }

  class LobbyDirectory {
    var order: seq<string>
    var lobbies: Rows
    var byPlayer: Index
    ghost var log: Log

    /** Rows, index and order are what the log defines; contract reads only ever touch the enriched figures. */
    ghost predicate Valid()
      reads this
    {
      && order == OpenedIds(log)
      && (forall id :: id in lobbies <==> LobbyOf(log, id).Some?)
      && (forall id :: id in lobbies ==> lobbies[id].id == id && EventPart(lobbies[id]) == EventPart(LobbyOf(log, id).value))
      && (forall a, id :: InIndex(byPlayer, a, id) <==> Linked(log, a, id))
      && IndexOk(byPlayer)
    }

    constructor ()
      ensures Valid() && log == []
    {
      order, lobbies, byPlayer := [], map[], map[];
      log := [];
    }

    method Apply(e: IndexedEvent)
      requires Valid()
      modifies this
      ensures Valid() && log == old(log) + [e]
    {
      hide LobbyOf, OpenedIds, Linked, Changed, EventPart, Enters, WasOpened, LobbyKey, Key, NewLobby;
      ghost var before, rows := log, lobbies;
      FoldIn(e);
      log := log + [e];
      forall id
        ensures id in lobbies <==> LobbyOf(log, id).Some?
        ensures id in lobbies ==> lobbies[id].id == id && EventPart(lobbies[id]) == EventPart(LobbyOf(log, id).value)
      {
        LobbyStep(before, e, id);
        RowStep(before, e, id, rows, lobbies);
      }
      forall a, id
        ensures InIndex(byPlayer, a, id) <==> Linked(log, a, id)
      {
        LinkedStep(before, e, a, id);
        OpenedMeans(log, id);
      }
      LobbyStep(before, e, "");
    }

    /** One event into the rows and the index. */
    method FoldIn(e: IndexedEvent)
      requires IndexOk(byPlayer)
      modifies this`order, this`lobbies, this`byPlayer
      ensures RowsAfter(e, old(lobbies), lobbies)
      ensures IndexAfter(e, lobbies, old(byPlayer), byPlayer)
      ensures order == if e.LobbyCreated? && LobbyKey(e.lobbyId).Some? && LobbyKey(e.lobbyId).value !in old(order)
                       then old(order) + [LobbyKey(e.lobbyId).value] else old(order)
    {
      hide Key, LobbyKey, Changed, RowsAfter, IndexAfter;
      var key := LobbyKey(e.lobbyId);
      if key.None? {
        SameRows(e, lobbies);
        SameIndex(e, lobbies, byPlayer);
        return;
      }
      var id := key.value;
      if e.LobbyCreated? {
        OpenRow(e, id);
      } else if id in lobbies {
        ChangedRow(e, lobbies, id);
        var l := lobbies[id];
        lobbies := lobbies[id := Changed(l, e)];
        if e.PlayerJoined? && Key(e.player).Some? {
          LinkedIndex(e, lobbies, byPlayer, Key(e.player).value, id);
          byPlayer := WithLink(byPlayer, Key(e.player).value, id);
        } else {
          SameIndex(e, lobbies, byPlayer);
        }
      } else {
        SameRows(e, lobbies);
        SameIndex(e, lobbies, byPlayer);
      }
    }

    method OpenRow(e: IndexedEvent, id: string)
      requires e.LobbyCreated? && LobbyKey(e.lobbyId) == Some(id) && IndexOk(byPlayer)
      modifies this`order, this`lobbies, this`byPlayer
      ensures RowsAfter(e, old(lobbies), lobbies)
      ensures IndexAfter(e, lobbies, old(byPlayer), byPlayer)
      ensures order == if id !in old(order) then old(order) + [id] else old(order)
    {
      hide Key, LobbyKey, Changed, IndexAfter;
      var creator := if Key(e.creator).Some? then Key(e.creator).value else "";
      lobbies := lobbies[id := Lobby(id, e.name, creator, e.entryPrice, e.startPrizePool, e.registrationDeadline, 0, None, None, None,
                                     None, OpenLobby, None, None, e.blockNumber, None, None, {})];
      if id !in order {
        order := order + [id];
      }
      if Key(e.creator).Some? {
        LinkedIndex(e, lobbies, byPlayer, creator, id);
        byPlayer := WithLink(byPlayer, creator, id);
      } else {
        SameIndex(e, lobbies, byPlayer);
      }
    }

    /** The figures no event carries, from whoever did read them: one row's, and nothing events define. */
    method Enrich(lobbyId: string, facts: Facts)
      requires Valid()
      modifies this`lobbies
      ensures Valid() && log == old(log)
      ensures lobbies == (if LowerCase(lobbyId) in old(lobbies)
                          then old(lobbies)[LowerCase(lobbyId) := Enriched(old(lobbies)[LowerCase(lobbyId)], facts)] else old(lobbies))
    {
      hide LobbyOf, OpenedIds, Linked, EventPart, Enriched, InIndex, IndexOk;
      var id := LowerCase(lobbyId);
      if id in lobbies {
        EnrichedKeepsEvents(lobbies[id], facts);
        lobbies := lobbies[id := Enriched(lobbies[id], facts)];
      }
    }

    /** All rows, in the order they were first opened. */
    function AllRows(): seq<Lobby>
      reads this
    {
      Filed(lobbies, order)
    }

    /** The rows are the lobbies the log opened: each of them, once, in the order they were first opened, and no other. */
    lemma RowsAreTheOpened()
      requires Valid()
      ensures |AllRows()| == |OpenedIds(log)|
      ensures forall i :: 0 <= i < |AllRows()| ==>
                OpenedIds(log)[i] in lobbies && AllRows()[i] == lobbies[OpenedIds(log)[i]] && AllRows()[i].id == OpenedIds(log)[i]
      ensures DistinctIds(AllRows())
      ensures forall id :: WasOpened(log, id) <==> id in lobbies && lobbies[id] in AllRows()
      ensures forall l :: l in AllRows() ==> WasOpened(log, l.id) && l == lobbies[l.id]
    {
      hide LobbyOf, OpenedIds, EventPart, WasOpened, Filed, Linked, InIndex, IndexOk;
      forall id
        ensures (id in OpenedIds(log) <==> WasOpened(log, id)) && (id in lobbies <==> WasOpened(log, id))
      {
        OpenedMeans(log, id);
      }
      FiledMeans(lobbies, order);
      OpenedIdsAreDistinct(log);
      forall id | WasOpened(log, id)
        ensures lobbies[id] in AllRows()
      {
        var i :| 0 <= i < |order| && order[i] == id;
        assert AllRows()[i] == lobbies[id];
      }
    }

    /** What the directory owes a query under a tab: every matching lobby of the log once, newest first, and no other. */
    ghost predicate IsDirectory(all: seq<Lobby>, query: string, status: Option<Status>)
      reads this
    {
      && IsNewestFirst(all)
      && (forall id :: WasOpened(log, id) && id in lobbies && IsListed(lobbies[id], query, status) ==> ListedOnce(all, id))
      && (forall l :: l in all ==>
            WasOpened(log, l.id) && l.id in lobbies && l == lobbies[l.id] && IsListed(l, query, status) && ListedOnce(all, l.id))
      && (forall i, j :: 0 <= i < j < |all| && all[i].createdBlock == all[j].createdBlock ==> OpenedBefore(log, all[i].id, all[j].id))
    }

    lemma ListIsTheDirectory(query: string, status: Option<Status>)
      requires Valid()
      ensures IsDirectory(NewestFirst(InStatus(Searched(AllRows(), query), status)), query, status)
    {
      hide Valid, Searched, InStatus, Filed, NewestFirst, IsFound, OpenedIds, WasOpened, ListedOnce, IsNewestFirst, AllRows;
      var rows := AllRows();
      var picked := InStatus(Searched(rows, query), status);
      var all := NewestFirst(picked);
      RowsAreTheOpened();
      var at := ListedPicks(rows, query, status);
      PickedIsDistinct(picked, rows, at);
      SortedIsDistinct(picked);
      SortingOrders(picked);
      forall id | WasOpened(log, id) && id in lobbies && IsListed(lobbies[id], query, status)
        ensures ListedOnce(all, id)
      {
        var i: nat :| i < |rows| && rows[i] == lobbies[id];
        assert i in at;
        var k :| 0 <= k < |at| && at[k] == i;
        assert picked[k] == lobbies[id] && lobbies[id].id == id by { RowIsItsLobby(id); }
        OnceIfDistinct(all, lobbies[id]);
      }
      forall l | l in all
        ensures WasOpened(log, l.id) && l.id in lobbies && l == lobbies[l.id] && IsListed(l, query, status) && ListedOnce(all, l.id)
      {
        var k :| 0 <= k < |picked| && picked[k] == l;
        assert at[k] in at;
        OnceIfDistinct(all, l);
      }
      forall i, j | 0 <= i < j < |all| && all[i].createdBlock == all[j].createdBlock
        ensures OpenedBefore(log, all[i].id, all[j].id)
      {
        var a, b := TiesKeepTheirOrder(picked, i, j);
        assert at[a] < at[b] && OpenedIds(log)[at[a]] == all[i].id && OpenedIds(log)[at[b]] == all[j].id;
      }
    }

    lemma RowIsItsLobby(id: string)
      requires Valid() && id in lobbies
      ensures lobbies[id].id == id
    {
    }

    /** Turning uncapped pages lists every matching lobby of the log exactly once. */
    lemma PagesListEachOnce(query: string, status: Option<Status>, limit: nat)
      requires Valid() && 0 < limit <= PAGE_LIMIT
      ensures IsDirectory(PagesFrom(NewestFirst(InStatus(Searched(AllRows(), query), status)), 0, limit), query, status)
    {
      hide Valid, IsDirectory, NewestFirst, InStatus, Searched, PagesFrom, AllRows;
      ListIsTheDirectory(query, status);
      PagesCoverIff(NewestFirst(InStatus(Searched(AllRows(), query), status)), limit);
    }

    /** The directory: a page of the newest-first list, how long that list is, and how many rows each tab has. */
    method List(status: Option<Status>, limit: Option<int>, offset: Option<int>, query: string)
      returns (page: seq<Lobby>, total: nat, counts: Counts)
      requires Valid()
      ensures var found := Searched(AllRows(), LowerCase(query));
              var all := NewestFirst(InStatus(found, status));
              && page == Page(all, if offset.Some? then offset.value else 0, if limit.Some? then limit.value else 50)
              && total == |all| == counts.Of(status) && counts == CountsOf(found)
              && IsDirectory(all, LowerCase(query), status)
      ensures counts.inOpen + counts.inActive + counts.inFinished + counts.inCancelled == counts.all
    {
      hide Valid, Searched, Filed, NewestFirst, IsFound, IsDirectory;
      var found := Searched(AllRows(), LowerCase(query));
      counts := Tally(found);
      var all := NewestFirst(InStatus(found, status));
      NewestFirstSorts(InStatus(found, status), 0);
      SameLength(all, InStatus(found, status));
      page := Page(all, if offset.Some? then offset.value else 0, if limit.Some? then limit.value else 50);
      total := |all|;
      ListIsTheDirectory(LowerCase(query), status);
    }

    /** One wallet's operations: the ones still going, and the last few behind it. */
    method ForPlayer(player: string) returns (live: seq<PlayerRow>, past: seq<PlayerRow>)
      requires Valid()
      ensures Key(player).None? ==> live == [] && past == []
      ensures Key(player).Some? ==>
                var a := Key(player).value;
                && (forall x :: x in live ==> Shows(x, a) && IsLive(x.lobby))
                && (forall x :: x in past ==> Shows(x, a) && !IsLive(x.lobby))
                && InViewOrder(live) && InViewOrder(past) && |past| <= PLAYER_PAST_LIMIT
                && (forall id :: Linked(log, a, id) && id in lobbies && IsLive(lobbies[id]) ==> AsPlayerRow(lobbies[id], a) in live)
                && (forall id :: Linked(log, a, id) && id in lobbies && !IsLive(lobbies[id]) && AsPlayerRow(lobbies[id], a) !in past ==>
                      |past| == PLAYER_PAST_LIMIT && forall x :: x in past ==> x.lobby.createdBlock >= lobbies[id].createdBlock)
                && (forall id :: Linked(log, a, id) ==> id in lobbies)
    {
      hide LobbyOf, OpenedIds, Linked, EventPart, WasOpened, NewestFirst, Filed, LiveOnes, Key, NoRepeats, FirstOf;
      live, past := [], [];
      if Key(player).None? {
        return;
      }
      var a := Key(player).value;
      forall id | Linked(log, a, id)
        ensures id in lobbies
      {
        LinkedIsOpened(log, a, id);
        OpenedMeans(log, id);
      }
      if a !in byPlayer {
        return;
      }
      var ids := byPlayer[a];
      var mine := NewestFirst(Filed(lobbies, ids));
      FiledIsDistinct(lobbies, ids);
      SortedIsDistinct(Filed(lobbies, ids));
      SortingOrders(Filed(lobbies, ids));
      LiveOnesSplit(mine);
      var atLive := LiveOnesPick(mine, true);
      PickedKeepsOrder(LiveOnes(mine, true), mine, atLive);
      var atPast := LiveOnesPick(mine, false);
      PickedKeepsOrder(LiveOnes(mine, false), mine, atPast);
      FirstAreNewest(LiveOnes(mine, false), PLAYER_PAST_LIMIT);
      var going, over := LiveOnes(mine, true), FirstOf(LiveOnes(mine, false), PLAYER_PAST_LIMIT);
      RowsOf(going, a);
      RowsOf(over, a);
      live, past := AsPlayerRows(going, a), AsPlayerRows(over, a);
    }

    /** A row that is this directory's, for this wallet. */
    ghost predicate Shows(x: PlayerRow, a: string)
      reads this
    {
      Linked(log, a, x.lobby.id) && x.lobby.id in lobbies && x == AsPlayerRow(lobbies[x.lobby.id], a)
    }

    /** Whether some lobby the log last opened as a draw is still going. */
    method HasLiveDraw() returns (has: bool)
      requires Valid()
      ensures has <==> exists id :: IsLiveDraw(log, id)
    {
      hide LobbyOf, OpenedIds, WasOpened, IsDraw, EventPart, Linked, InIndex, IndexOk;
      has := exists id :: id in lobbies && lobbies[id].drawBountyWei.Some? && IsLive(lobbies[id]);
      forall id
        ensures id in lobbies && lobbies[id].drawBountyWei.Some? && IsLive(lobbies[id]) <==> IsLiveDraw(log, id)
      {
        DrawMeans(log, id);
        if id in lobbies { SameEventPart(lobbies[id], LobbyOf(log, id).value); }
      }
    }
  }

  lemma SameLength(xs: seq<Lobby>, ys: seq<Lobby>)
    requires multiset(xs) == multiset(ys)
    ensures |xs| == |ys|
  {
    assert |multiset(xs)| == |xs| && |multiset(ys)| == |ys|;
  }

  lemma RowsOf(xs: seq<Lobby>, a: string)
    ensures forall l :: l in xs ==> AsPlayerRow(l, a) in AsPlayerRows(xs, a)
    ensures forall x :: x in AsPlayerRows(xs, a) ==> x.lobby in xs && x == AsPlayerRow(x.lobby, a)
    ensures |AsPlayerRows(xs, a)| == |xs| && (IsNewestFirst(xs) && DistinctIds(xs) ==> InViewOrder(AsPlayerRows(xs, a)))
  {
    forall l | l in xs
      ensures AsPlayerRow(l, a) in AsPlayerRows(xs, a)
    {
      var i :| 0 <= i < |xs| && xs[i] == l;
      assert AsPlayerRows(xs, a)[i] == AsPlayerRow(l, a);
    }
  }

  lemma LinkedIsOpened(log: Log, a: string, id: string)
    requires Linked(log, a, id)
    ensures WasOpened(log, id)
  {
    hide Enters;
    var i :| 0 <= i < |log| && Enters(log[i], a, id) && WasOpened(log[..i + 1], id);
    var j :| 0 <= j < i + 1 && Opens(log[..i + 1][j], id);
    assert Opens(log[j], id);
  }

  /** One row's step matches the log's. */
  lemma RowStep(log: Log, e: IndexedEvent, id: string, before: Rows, after: Rows)
    requires RowsAfter(e, before, after)
    requires id in before <==> LobbyOf(log, id).Some?
    requires id in before ==> before[id].id == id && EventPart(before[id]) == EventPart(LobbyOf(log, id).value)
    ensures id in after <==> LobbyOf(log + [e], id).Some?
    ensures id in after ==> after[id].id == id && EventPart(after[id]) == EventPart(LobbyOf(log + [e], id).value)
  {
    hide LobbyOf, OpenedIds, Changed, LobbyKey;
    LobbyStep(log, e, id);
    if id in before && LobbyOf(log, id).Some? {
      ChangedEventPart(before[id], LobbyOf(log, id).value, e);
    }
  }
}
