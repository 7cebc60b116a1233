/**
 * Whatever happened and whoever looked when, a settled room is where its block says: its schedule, its stage and its
 * verdict are those that settling at every block would have given. And no placed Defense is ever overwritten.
 */
module Timetable {
  import opened Options
  import opened World
  import opened Interception
  import opened GlobalDefense
  import opened EmulatorState
  import opened GameContract
  import opened Accounting
  import opened RoomMoves
  import opened RoomHistory
  import opened Jackpot
  import opened Solvency
  import opened Runs
  import opened LazySettlement

  // ------------------------------------------------------ what a room keeps true

  /** The attack was judged by its own attempts and path, at impact or later, and the room ended as the verdict says. */
  predicate Judged(p: Protocol, r: Room, block: int) {
    && Judgeable(r) && r.outcome.Some? && r.outcome.value.resolution == VerdictOf(p, r)
    && r.attack.value.ImpactBlock() <= r.outcome.value.resolvedAtBlock <= block
    && r.status == if WasActedIn(r) then Resolved else Cancelled
  }

  /** The attack flies in the room's own epoch, and its status has not run ahead of the clock. */
  predicate Flying(p: Protocol, r: Room, block: int)
    requires p.limits.epochBlocks > 0 && r.attack.Some?
  {
    && r.currentEpochId.Some?
    && r.attack.value == ScheduledAttack(p, r, r.currentEpochId.value).(status := r.attack.value.status)
    && (r.attack.value.status != AttackPending ==> r.attack.value.launchBlock <= block)
    && (r.attack.value.status == AttackResolved ==> Judged(p, r, block))
  }

  /** A room with a block deadline keeps to it: bound to one epoch, closed no earlier, started only with a full team. */
  predicate OnTime(p: Protocol, r: Room, block: int)
    requires p.limits.epochBlocks > 0
  {
    r.config.deadlineBlock > 0 ==>
      && r.currentEpochId.Some?
      && (!r.ProtocolOwned() ==> r.currentEpochId.value == LaunchEpochFor(p, r, block))
      && (r.status != Open ==> r.config.deadlineBlock <= block)
      && (r.attack.None? ==> r.outcome.None?)
      && (r.attack.None? && r.status != Open ==> r.status == Cancelled && r.participantCount < r.config.minPlayers)
      && (r.attack.Some? ==> r.participantCount >= r.config.minPlayers && Flying(p, r, block))
  }

  /** Points are filed under the first `n` transactions. */
  predicate Filed(r: Room, n: nat) { forall k :: k in r.points ==> k <= n }

  predicate Punctual(p: Protocol, r: Room, block: int, n: nat)
    requires p.limits.epochBlocks > 0
  {
    OnTime(p, r, block) && Filed(r, n)
  }

  /** Every point on file stays there, as it was. */
  predicate PointsKept(r: Room, t: Room) { forall k :: k in r.points ==> k in t.points && t.points[k] == r.points[k] }

  ghost predicate Timely(p: Protocol, s: State, n: nat)
    requires p.limits.epochBlocks > 0
  {
    forall id :: id in s.rooms ==> Punctual(p, s.rooms[id], s.block, n)
  }

  /** Nothing that was on file in `s` is lost in `t`, and `t` is timely. */
  ghost predicate KeepsTime(p: Protocol, s: State, t: State, n: nat)
    requires p.limits.epochBlocks > 0
  {
    Timely(p, t, n) && forall id :: id in s.rooms ==> id in t.rooms && PointsKept(s.rooms[id], t.rooms[id])
  }

  lemma KeepsTimeChains(p: Protocol, s: State, t: State, u: State, n: nat)
    requires p.Valid() && KeepsTime(p, s, t, n) && KeepsTime(p, t, u, n)
    ensures KeepsTime(p, s, u, n)
  {
    hide Punctual;
  }

  lemma SameKeepsTime(p: Protocol, s: State, t: State, n: nat)
    requires p.Valid() && Timely(p, s, n) && t.rooms == s.rooms && t.block >= s.block
    ensures KeepsTime(p, s, t, n)
  {
    forall id | id in s.rooms
      ensures Punctual(p, s.rooms[id], t.block, n)
    {
      LaterIsPunctual(p, s.rooms[id], s.block, t.block, n, n);
    }
  }

  lemma LaterIsPunctual(p: Protocol, r: Room, block: int, later: int, n: nat, more: nat)
    requires p.Valid() && Punctual(p, r, block, n) && block <= later && n <= more
    ensures Punctual(p, r, later, more)
  {
    hide VerdictOf, WasActedIn, ScheduledAttack;
  }

  lemma MoreTransactions(p: Protocol, s: State, t: State, n: nat, more: nat)
    requires p.Valid() && n <= more
    ensures Timely(p, t, n) ==> Timely(p, t, more)
    ensures KeepsTime(p, s, t, n) ==> KeepsTime(p, s, t, more)
  {
    if Timely(p, t, n) {
      forall id | id in t.rooms
        ensures Punctual(p, t.rooms[id], t.block, more)
      {
        LaterIsPunctual(p, t.rooms[id], t.block, t.block, n, more);
      }
    }
  }

  lemma OneRoomKeepsTime(p: Protocol, s: State, t: State, id: Hash, n: nat)
    requires p.Valid() && Timely(p, s, n) && id in s.rooms && id in t.rooms && t.rooms == s.rooms[id := t.rooms[id]]
    requires t.block == s.block
    requires Punctual(p, t.rooms[id], s.block, n) && PointsKept(s.rooms[id], t.rooms[id])
    ensures KeepsTime(p, s, t, n)
  {
    hide Punctual;
  }

  // ------------------------------------------------------------ what a change keeps

  /** Everything the timetable looks at is as it was. */
  predicate Quiet(r: Room, t: Room) {
    && t == r.(seats := t.seats, ledger := t.ledger, revealed := t.revealed, participantCount := t.participantCount,
               participantAddresses := t.participantAddresses)
    && (t.participantCount == r.participantCount || r.status == Open)
    && (r.attack.Some? && r.attack.value.status == AttackResolved ==> WasActedIn(t) == WasActedIn(r))
  }

  lemma SameVerdict(p: Protocol, r: Room, t: Room)
    requires Judgeable(r) && Judgeable(t) && t.trajectory == r.trajectory && t.attempts == r.attempts && t.points == r.points
    requires t.attack.value.(status := AttackPending) == r.attack.value.(status := AttackPending)
    requires t.config == r.config
    ensures VerdictOf(p, t) == VerdictOf(p, r)
  {
    hide ResolveAttack;
    assert OpenedAttempts(t) == OpenedAttempts(r);
    assert SceneOf(p, t) == SceneOf(p, r);
    assert VerdictOf(p, r) == ResolveAttack(OpenedAttempts(r), SceneOf(p, r));
    assert VerdictOf(p, t) == ResolveAttack(OpenedAttempts(t), SceneOf(p, t));
  }

  lemma QuietKeeps(p: Protocol, r: Room, t: Room, block: int, n: nat)
    requires p.Valid() && Punctual(p, r, block, n) && Quiet(r, t) && (r.status == Open ==> r.attack.None?)
    ensures Punctual(p, t, block, n) && PointsKept(r, t)
  {
    hide VerdictOf, WasActedIn;
    if Judgeable(r) { SameVerdict(p, r, t); }
  }

  /** Whatever happens to a finished room is quiet. */
  lemma EndedIsQuiet(r: Room, t: Room)
    requires r.ending != NotEnded && Evolves(r, t)
    ensures Quiet(r, t)
  {
    hide PlayKept;
    assert WasActedIn(t) == WasActedIn(r) by {
      if WasActedIn(r) {
        var a :| a in r.seats && r.seats[a].actionCount > 0;
        assert t.seats[a].actionCount > 0;
      }
      if WasActedIn(t) {
        var a :| a in t.seats && t.seats[a].actionCount > 0;
        assert r.seats[a].actionCount > 0;
      }
    }
  }

  lemma EndedKeepsTime(p: Protocol, s: State, t: State, id: Hash, n: nat)
    requires p.Valid() && Solvent(s) && Timely(p, s, n) && Touched(s, t, id) && s.rooms[id].ending != NotEnded
    ensures KeepsTime(p, s, t, n)
  {
    hide Solvent, Evolves, Quiet, Punctual, RoomOk, PoolTerm;
    SolventRoom(s, id);
    Stages(s.rooms[id]);
    EndedIsQuiet(s.rooms[id], t.rooms[id]);
    QuietKeeps(p, s.rooms[id], t.rooms[id], s.block, n);
    OneRoomKeepsTime(p, s, t, id, n);
  }

  lemma Stages(r: Room)
    requires RoomOk(r)
    ensures r.ending != NotEnded <==> r.status in {Resolved, Cancelled}
    ensures r.status in {Open, Ready} ==> r.attack.None? && r.outcome.None?
    ensures r.status == Active ==> Judgeable(r) && r.attack.value.status != AttackResolved
    ensures r.status == Resolved ==> r.attack.Some?
    ensures r.attack.Some? && r.attack.value.status != AttackResolved ==> r.status == Active
  {
    hide BooksOk, AttemptsOk;
  }

  // --------------------------------------------------------------- settlement

  lemma StartedOnTime(p: Protocol, r: Room, id: Hash, block: int, n: nat, pooled: int)
    requires p.Valid() && Punctual(p, r, block, n) && r.attack.None?
    requires r.config.deadlineBlock > 0 ==> r.config.deadlineBlock <= block && r.participantCount >= r.config.minPlayers
    ensures var t := ActivatedRoom(p, r.(status := Ready), id, block, pooled);
            Punctual(p, t, block, n) && PointsKept(r, t)
  {
  }

  lemma ConcludedOnTime(p: Protocol, r: Room, block: int, n: nat)
    requires p.Valid() && Punctual(p, r, block, n) && Judgeable(r) && r.attack.value.ImpactBlock() <= block
    requires r.attack.value.status == AttackLaunched && r.status == Active
    ensures Punctual(p, ConcludedRoom(p, r, block), block, n) && PointsKept(r, ConcludedRoom(p, r, block))
  {
    hide VerdictOf, Forfeited;
    var t := ConcludedRoom(p, r, block);
    SameVerdict(p, r, t);
    assert WasActedIn(t) == WasActedIn(r) by {
      if WasActedIn(r) {
        var a :| a in r.seats && r.seats[a].actionCount > 0;
        assert t.seats[a].actionCount > 0;
      }
      if WasActedIn(t) {
        var a :| a in t.seats && t.seats[a].actionCount > 0;
        assert r.seats[a].actionCount > 0;
      }
    }
    hide WasActedIn;
    assert Judged(p, t, block);
  }

  lemma LaunchedOnTime(p: Protocol, r: Room, block: int, n: nat)
    requires p.Valid() && Punctual(p, r, block, n) && r.attack.Some?
    ensures Punctual(p, LaunchedRoom(r, block), block, n) && PointsKept(r, LaunchedRoom(r, block))
  {
    hide VerdictOf, WasActedIn;
  }

  lemma AdvancedOnTime(p: Protocol, r: Room, block: int, n: nat)
    requires p.Valid() && Punctual(p, r, block, n) && Judgeable(r) && r.status == Active
    ensures Punctual(p, AdvancedRoom(p, r, block), block, n) && PointsKept(r, AdvancedRoom(p, r, block))
  {
    hide Punctual, ConcludedRoom;
    LaunchedOnTime(p, r, block, n);
    if Lands(r, block) { ConcludedOnTime(p, LaunchedRoom(r, block), block, n); }
  }

  /** Advancing an active room, from any sound state. */
  lemma AdvanceKeepsTime(p: Protocol, s: State, id: Hash, n: nat)
    requires p.Valid() && Solvent(s) && DrawsOk(s) && AtRest(s) && id in s.rooms && s.rooms[id].status == Active
    requires Timely(p, s, n)
    ensures KeepsTime(p, s, AdvanceAttack(p, s, id), n)
  {
    hide Solvent, DrawsOk, AtRest, Punctual, AdvanceAttack, AdvancedRoom, AdvancedForfeit;
    AdvanceIs(p, s, id);
    AdvancedOnTime(p, s.rooms[id], s.block, n);
    OneRoomKeepsTime(p, s, AdvanceAttack(p, s, id), id, n);
  }

  lemma StartKeepsTime(p: Protocol, s: State, id: Hash, nowMs: int, n: nat)
    requires p.Valid() && Inv(s) && Timely(p, s, n) && id in s.rooms && s.rooms[id].status == Open
    requires DeadlinePassed(s.rooms[id].config, s.block, nowMs)
    requires s.rooms[id].participantCount >= s.rooms[id].config.minPlayers
    ensures KeepsTime(p, s, SettleLobby(p, s, id, nowMs), n)
  {
    hide Inv, Punctual, ActivatedRoom, AdvanceAttack, SettleLobby, PointsKept, Solvent, DrawsOk, AtRest;
    var ready := s.rooms[id].(status := Ready);
    var t := Activate(p, Put(s, id, ready), id);
    OpenHasNoAttack(s, id);
    StartedOnTime(p, s.rooms[id], id, s.block, n, Pooled(s, ready));
    StartedIs(p, s, id, nowMs);
    assert s.rooms[id := ready][id := t.rooms[id]] == s.rooms[id := t.rooms[id]];
    OneRoomKeepsTime(p, s, t, id, n);
    AdvanceKeepsTime(p, t, id, n);
    KeepsTimeChains(p, s, t, AdvanceAttack(p, t, id), n);
  }

  lemma OpenHasNoAttack(s: State, id: Hash)
    requires Inv(s) && id in s.rooms && s.rooms[id].status == Open
    ensures s.rooms[id].attack.None?
  {
    hide RoomOk, Solvent, DrawsOk, JackpotOk;
    SolventRoom(s, id);
    Stages(s.rooms[id]);
  }

  lemma CloseUnfilledKeepsTime(p: Protocol, s: State, id: Hash, nowMs: int, n: nat)
    requires p.Valid() && Inv(s) && Timely(p, s, n) && id in s.rooms && s.rooms[id].status == Open
    requires DeadlinePassed(s.rooms[id].config, s.block, nowMs)
    requires s.rooms[id].participantCount < s.rooms[id].config.minPlayers
    ensures KeepsTime(p, s, SettleLobby(p, s, id, nowMs), n)
  {
    hide Inv, Solvent, PayoutUnplayed, SettleLobby, Evolves, PoolTerm, Orphaned, VerdictOf, Flying;
    var c := Put(s, id, CalledOffRoom(s.rooms[id]));
    OpenHasNoAttack(s, id);
    OneRoomKeepsTime(p, s, c, id, n);
    UnfilledIs(p, s, id, nowMs);
    CancelledIsSolvent(s, id);
    PayoutUnplayedKeeps(c, id);
    EndedKeepsTime(p, c, PayoutUnplayed(c, id), id, n);
    KeepsTimeChains(p, s, c, PayoutUnplayed(c, id), n);
  }

  lemma SettleKeepsTime(p: Protocol, s: State, id: Hash, nowMs: int, n: nat)
    requires p.Valid() && Inv(s) && Timely(p, s, n)
    ensures KeepsTime(p, s, SettleLobby(p, s, id, nowMs), n)
  {
    hide Inv, Timely, KeepsTime, SettleLobby, AdvanceAttack;
    InvParts(s);
    if id in s.rooms && s.rooms[id].status == Active {
      ActiveSettles(p, s, id, nowMs);
      AdvanceKeepsTime(p, s, id, n);
    } else if id in s.rooms && s.rooms[id].status == Open && DeadlinePassed(s.rooms[id].config, s.block, nowMs) {
      if s.rooms[id].participantCount >= s.rooms[id].config.minPlayers {
        StartKeepsTime(p, s, id, nowMs, n);
      } else {
        CloseUnfilledKeepsTime(p, s, id, nowMs, n);
      }
    } else {
      if id in s.rooms { Resting(s, id); }
      Idle(p, s, id, nowMs);
      SameKeepsTime(p, s, s, n);
    }
  }

  lemma Resting(s: State, id: Hash)
    requires Inv(s) && id in s.rooms
    ensures s.rooms[id].status != Ready
  {
    hide Solvent, DrawsOk, JackpotOk;
  }

  lemma {:induction false} SettleRoomsKeepTime(p: Protocol, s: State, count: nat, nowMs: int, n: nat)
    requires p.Valid() && Inv(s) && Timely(p, s, n)
    ensures KeepsTime(p, s, SettleRooms(p, s, count, nowMs), n)
  {
    hide Inv, SettleLobby, Punctual, PointsKept, Continues, NothingOrphaned;
    if count == 0 {
      SameKeepsTime(p, s, s, n);
    } else {
      var t := SettleRooms(p, s, count - 1, nowMs);
      SettleRoomsKeepTime(p, s, count - 1, nowMs, n);
      SettleRoomsKeep(p, s, count - 1, nowMs);
      SettleKeepsTime(p, t, count, nowMs, n);
      KeepsTimeChains(p, s, t, SettleLobby(p, t, count, nowMs), n);
    }
  }

  // ------------------------------------------------------------------- draws

  lemma SettleDrawKeepsTime(p: Protocol, s: State, id: Hash, n: nat)
    requires p.Valid() && Inv(s) && Timely(p, s, n)
    ensures KeepsTime(p, s, SettleProtocolDraw(s, id), n)
  {
    hide Solvent, DrawsOk, JackpotOk, Punctual, Evolves, PoolTerm, Quiet, RoomOk;
    var t := SettleProtocolDraw(s, id);
    if t == s {
      SameKeepsTime(p, s, s, n);
    } else {
      SolventRoom(s, id);
      Stages(s.rooms[id]);
      SettledEvolves(s.rooms[id]);
      EndedIsQuiet(s.rooms[id], t.rooms[id]);
      QuietKeeps(p, s.rooms[id], t.rooms[id], s.block, n);
      OneRoomKeepsTime(p, s, t, id, n);
    }
  }

  lemma {:induction false} SettleDrawsKeepTime(p: Protocol, s: State, count: nat, n: nat)
    requires p.Valid() && Inv(s) && Timely(p, s, n)
    ensures KeepsTime(p, s, SettleProtocolDraws(s, count), n)
  {
    hide Inv, SettleProtocolDraw, Punctual, PointsKept, Continues, NothingOrphaned;
    if count == 0 {
      SameKeepsTime(p, s, s, n);
    } else {
      var t := SettleProtocolDraws(s, count - 1);
      SettleDrawsKeepTime(p, s, count - 1, n);
      SettleDrawsKeep(s, count - 1);
      SettleDrawKeepsTime(p, t, count, n);
      KeepsTimeChains(p, s, t, SettleProtocolDraw(t, count), n);
    }
  }

  lemma MintKeepsTime(p: Protocol, s: State, t: State, id: Hash, n: nat)
    requires p.Valid() && Timely(p, s, n) && id !in s.rooms && id in t.rooms && t.rooms == s.rooms[id := t.rooms[id]]
    requires t.block == s.block && Punctual(p, t.rooms[id], s.block, n)
    ensures KeepsTime(p, s, t, n)
  {
    hide Punctual;
  }

  lemma OpenDrawKeepsTime(p: Protocol, s: State, nowMs: int, hash: Hash, n: nat)
    requires p.Valid() && Timely(p, s, n) && hash !in s.rooms
    ensures KeepsTime(p, s, OpenGlobalDefense(p, s, nowMs, hash).state, n)
  {
    hide Timely, KeepsTime, UpcomingDraw, Flying;
    var tx := OpenGlobalDefense(p, s, nowMs, hash);
    if tx.Confirmed? {
      MintKeepsTime(p, s, tx.state, hash, n);
    } else {
      SameKeepsTime(p, s, s, n);
    }
  }

  lemma MaybeOpenKeepsTime(p: Protocol, s: State, nowMs: int, n: nat)
    requires p.Valid() && Inv(s) && Timely(p, s, n)
    ensures KeepsTime(p, s, MaybeOpenGlobalDefense(p, s, nowMs), n)
  {
    hide Inv, OpenGlobalDefense, IsGlobalDefenseDue, Punctual, PointsKept;
    SameKeepsTime(p, s, s, n);
    if IsGlobalDefenseDue(p, s) {
      FreshId(s);
      SameKeepsTime(p, s, NextHash(s), n);
      OpenDrawKeepsTime(p, NextHash(s), nowMs, s.txCounter + 1, n);
      KeepsTimeChains(p, s, NextHash(s), MaybeOpenGlobalDefense(p, s, nowMs), n);
    }
  }

  // ------------------------------------------------------------------- writes

  lemma JoinKeepsTime(p: Protocol, s: State, from: Address, id: Hash, value: int, nowMs: int, n: nat)
    requires p.Valid() && Inv(s) && Timely(p, s, n)
    ensures KeepsTime(p, s, ApplyJoinLobby(s, from, id, value, nowMs).state, n)
  {
    hide Inv, Punctual, Commission, JoinCost;
    var tx := ApplyJoinLobby(s, from, id, value, nowMs);
    if tx.Confirmed? {
      OpenHasNoAttack(s, id);
      QuietKeeps(p, s.rooms[id], Joined(s.rooms[id], from), s.block, n);
      OneRoomKeepsTime(p, s, tx.state, id, n);
    } else {
      SameKeepsTime(p, s, s, n);
    }
  }

  lemma LeaveKeepsTime(p: Protocol, s: State, from: Address, id: Hash, amount: int, n: nat)
    requires p.Valid() && Inv(s) && Timely(p, s, n) && id in s.rooms && s.rooms[id].status == Open && from in s.rooms[id].seats
    ensures KeepsTime(p, s, PayOut(Put(s, id, Left(s.rooms[id], from)), from, amount), n)
  {
    hide Inv, Punctual;
    OpenHasNoAttack(s, id);
    QuietKeeps(p, s.rooms[id], Left(s.rooms[id], from), s.block, n);
    OneRoomKeepsTime(p, s, PayOut(Put(s, id, Left(s.rooms[id], from)), from, amount), id, n);
  }

  /** A purchase, or a probe, touches the buyer's seat in a room that has no verdict yet. */
  lemma SeatKeepsTime(p: Protocol, s: State, t: State, id: Hash, n: nat)
    requires p.Valid() && Inv(s) && Timely(p, s, n) && id in s.rooms && id in t.rooms && t.rooms == s.rooms[id := t.rooms[id]]
    requires t.block == s.block && s.rooms[id].status in {Open, Active}
    requires t.rooms[id] == s.rooms[id].(seats := t.rooms[id].seats, ledger := t.rooms[id].ledger)
    ensures KeepsTime(p, s, t, n)
  {
    hide Solvent, DrawsOk, JackpotOk, AtRest, RoomOk, Punctual;
    SolventRoom(s, id);
    Stages(s.rooms[id]);
    QuietKeeps(p, s.rooms[id], t.rooms[id], s.block, n);
    OneRoomKeepsTime(p, s, t, id, n);
  }

  /** A Defense is filed under a transaction of its own, so nobody's point is lost. */
  lemma DefendKeepsTime(p: Protocol, s: State, id: Hash, from: Address, point: DefensePoint, hash: Hash, n: nat)
    requires p.Valid() && Inv(s) && Timely(p, s, n) && id in s.rooms && s.rooms[id].status == Active && from in s.rooms[id].seats
    requires n < hash
    ensures KeepsTime(p, s, Put(s, id, Defended(s.rooms[id], from, point, s.block, hash)), hash)
  {
    hide Solvent, DrawsOk, JackpotOk, AtRest, RoomOk, VerdictOf, WasActedIn;
    SolventRoom(s, id);
    Stages(s.rooms[id]);
    MoreTransactions(p, s, s, n, hash);
    OneRoomKeepsTime(p, s, Put(s, id, Defended(s.rooms[id], from, point, s.block, hash)), id, hash);
  }

  /** Settled once, a room answers a call as if it had been settled all along. */
  lemma SettledFirst(p: Protocol, s: State, id: Hash, nowMs: int, n: nat)
    requires p.Valid() && Inv(s) && Timely(p, s, n) && id in s.rooms
    ensures var u := SettleLobby(p, s, id, nowMs);
            && Inv(u) && Timely(p, u, n) && KeepsTime(p, s, u, n) && id in u.rooms && SettleLobby(p, u, id, nowMs) == u
            && u.block == s.block && u.txCounter == s.txCounter && RoomOk(u.rooms[id]) && u.rooms[id].status != Ready
  {
    hide Inv, SettleLobby, Punctual, PointsKept, RoomOk, OnlyRoom;
    SettleKeepsTime(p, s, id, nowMs, n);
    SettleKeeps(p, s, id, nowMs);
    SettlingAgainChangesNothing(p, s, id, nowMs);
    InvParts(SettleLobby(p, s, id, nowMs));
    SolventRoom(SettleLobby(p, s, id, nowMs), id);
    Resting(SettleLobby(p, s, id, nowMs), id);
  }

  // Claims, refunds, settlements and reveals only ever touch a finished room.

  lemma RevealKeepsTime(p: Protocol, s: State, from: Address, id: Hash, attackId: int, nowMs: int, n: nat)
    requires p.Valid() && Inv(s) && Timely(p, s, n) && id in s.rooms
    ensures KeepsTime(p, s, ApplyRevealAttack(p, s, from, id, attackId, nowMs).state, n)
  {
    hide Inv, SettleLobby, Timely, KeepsTime, RoomOk, Touched, Orphaned, Settled, Rewarded, PaidBack, PayOut, SeatRefund,
         BountyRefund, CompletedCreatorDue;
    SettledFirst(p, s, id, nowMs, n);
    var u := SettleLobby(p, s, id, nowMs);
    var t := ApplyRevealAttack(p, s, from, id, attackId, nowMs).state;
    if t != u {
      RevealKeeps(p, u, from, id, attackId, nowMs);
      ResolvedMeansFinished(u.rooms[id], attackId);
      Stages(u.rooms[id]);
      InvParts(u);
      EndedKeepsTime(p, u, t, id, n);
      KeepsTimeChains(p, s, u, t, n);
    }
  }

  lemma ClaimRewardKeepsTime(p: Protocol, s: State, from: Address, id: Hash, attackId: int, nowMs: int, n: nat)
    requires p.Valid() && Inv(s) && Timely(p, s, n) && id in s.rooms
    ensures KeepsTime(p, s, ApplyClaimReward(p, s, from, id, attackId, nowMs).state, n)
  {
    hide Inv, SettleLobby, Timely, KeepsTime, RoomOk, Touched, Orphaned, Settled, Rewarded, PaidBack, PayOut, SeatRefund,
         BountyRefund, CompletedCreatorDue;
    SettledFirst(p, s, id, nowMs, n);
    var u := SettleLobby(p, s, id, nowMs);
    var t := ApplyClaimReward(p, s, from, id, attackId, nowMs).state;
    if t != u {
      ClaimRewardKeeps(p, u, from, id, attackId, nowMs);
      WinnerIsOwed(u.rooms[id], from, attackId);
      Stages(u.rooms[id]);
      InvParts(u);
      EndedKeepsTime(p, u, t, id, n);
      KeepsTimeChains(p, s, u, t, n);
    }
  }

  lemma ClaimRefundKeepsTime(p: Protocol, s: State, from: Address, id: Hash, nowMs: int, n: nat)
    requires p.Valid() && Inv(s) && Timely(p, s, n) && id in s.rooms && from != PROTOCOL_ESCROW_ADDRESS
    ensures KeepsTime(p, s, ApplyClaimRefund(p, s, from, id, nowMs).state, n)
  {
    hide Inv, SettleLobby, Timely, KeepsTime, RoomOk, Touched, Orphaned, Settled, Rewarded, PaidBack, PayOut, SeatRefund,
         BountyRefund, CompletedCreatorDue;
    SettledFirst(p, s, id, nowMs, n);
    var u := SettleLobby(p, s, id, nowMs);
    var t := ApplyClaimRefund(p, s, from, id, nowMs).state;
    if t != u {
      ClaimRefundKeeps(p, u, from, id, nowMs);
      Stages(u.rooms[id]);
      InvParts(u);
      EndedKeepsTime(p, u, t, id, n);
      KeepsTimeChains(p, s, u, t, n);
    }
  }

  lemma SettleCreatorKeepsTime(p: Protocol, s: State, from: Address, id: Hash, nowMs: int, n: nat)
    requires p.Valid() && Inv(s) && Timely(p, s, n) && id in s.rooms
    ensures KeepsTime(p, s, ApplySettleCreator(p, s, from, id, nowMs).state, n)
  {
    hide Inv, SettleLobby, Timely, KeepsTime, RoomOk, Touched, Orphaned, Settled, Rewarded, PaidBack, PayOut, SeatRefund,
         BountyRefund, CompletedCreatorDue;
    SettledFirst(p, s, id, nowMs, n);
    var u := SettleLobby(p, s, id, nowMs);
    var t := ApplySettleCreator(p, s, from, id, nowMs).state;
    if t != u {
      SettleCreatorKeeps(p, u, from, id, nowMs);
      Stages(u.rooms[id]);
      InvParts(u);
      EndedKeepsTime(p, u, t, id, n);
      KeepsTimeChains(p, s, u, t, n);
    }
  }

  lemma ActionKeepsTime(p: Protocol, s: State, from: Address, id: Hash, envelope: SealedRequest, nowMs: int, hash: Hash, n: nat)
    requires p.Valid() && Inv(s) && Timely(p, s, n) && id in s.rooms && n < hash
    ensures KeepsTime(p, s, ApplyPrivateAction(p, s, from, id, envelope, nowMs, hash).state, hash)
  {
    hide Inv, SettleLobby, Timely, KeepsTime, RoomOk, Probed, Defended;
    SettledFirst(p, s, id, nowMs, n);
    var u := SettleLobby(p, s, id, nowMs);
    var t := ApplyPrivateAction(p, s, from, id, envelope, nowMs, hash).state;
    MoreTransactions(p, s, u, n, hash);
    if t != u {
      LaunchedMeansActive(u.rooms[id], envelope.request.attackId);
      match envelope.request {
        case ReconProbe(attackId) => ProbeKeepsTime(p, u, id, from, hash, hash);
        case DefenseSubmit(attackId, point) => DefendKeepsTime(p, u, id, from, point, hash, n);
      }
      KeepsTimeChains(p, s, u, t, hash);
    }
  }

  lemma ProbeKeepsTime(p: Protocol, s: State, id: Hash, from: Address, hash: Hash, n: nat)
    requires p.Valid() && Inv(s) && Timely(p, s, n) && id in s.rooms && s.rooms[id].status == Active && from in s.rooms[id].seats
    ensures KeepsTime(p, s, Put(s, id, Probed(s.rooms[id], from, s.block, hash)), n)
  {
    hide Inv;
    SeatKeepsTime(p, s, Put(s, id, Probed(s.rooms[id], from, s.block, hash)), id, n);
  }

  lemma CallOfLeave(p: Protocol, s: State, from: Address, id: Hash, nowMs: int, n: nat)
    requires p.Valid() && Inv(s) && Timely(p, s, n) && id in s.rooms
    ensures KeepsTime(p, s, ApplyLeaveLobby(p, s, from, id, nowMs).state, n)
  {
    hide Inv, SettleLobby, Timely, KeepsTime, RoomOk, Left, PayOut;
    SettledFirst(p, s, id, nowMs, n);
    var u := SettleLobby(p, s, id, nowMs);
    var tx := ApplyLeaveLobby(p, s, from, id, nowMs);
    if tx.Confirmed? {
      LeaveKeepsTime(p, u, from, id, u.rooms[id].seats[from].paidIn, n);
      KeepsTimeChains(p, s, u, tx.state, n);
    }
  }

  lemma CallOfBuy(p: Protocol, s: State, from: Address, id: Hash, value: int, nowMs: int, n: nat)
    requires p.Valid() && Inv(s) && Timely(p, s, n) && id in s.rooms
    ensures KeepsTime(p, s, ApplyBuyDrone(p, s, from, id, value, nowMs).state, n)
  {
    hide Inv, SettleLobby, Timely, KeepsTime, RoomOk;
    SettledFirst(p, s, id, nowMs, n);
    var u := SettleLobby(p, s, id, nowMs);
    var tx := ApplyBuyDrone(p, s, from, id, value, nowMs);
    if tx.Confirmed? {
      SeatKeepsTime(p, u, tx.state, id, n);
      KeepsTimeChains(p, s, u, tx.state, n);
    }
  }

  lemma LobbyCallKeepsTime(p: Protocol, s: State, from: Address, call: Call, nowMs: int)
    requires p.Valid() && Inv(s) && from != PROTOCOL_ESCROW_ADDRESS && Timely(p, s, s.txCounter)
    requires !call.CreateLobby? && !call.OpenDraw? && !call.CollectProbe?
    ensures KeepsTime(p, NextHash(s), WriteContract(p, s, from, call, nowMs).state, s.txCounter + 1)
  {
    hide Inv, Timely, KeepsTime, ApplyJoinLobby, ApplyLeaveLobby, ApplyBuyDrone, ApplyPrivateAction, ApplyRevealAttack,
         ApplyClaimReward, ApplyClaimRefund, ApplySettleCreator;
    NextHashKeeps(s);
    var u, n := NextHash(s), s.txCounter + 1;
    SameKeepsTime(p, s, u, s.txCounter);
    TimelyIfKept(p, s, u, s.txCounter);
    MoreTransactions(p, s, u, s.txCounter, n);
    if call.lobbyId in u.rooms {
      match call {
        case JoinLobby(id, value) => JoinKeepsTime(p, u, from, id, value, nowMs, n);
        case LeaveLobby(id) => CallOfLeave(p, u, from, id, nowMs, n);
        case BuyDrone(id, value) => CallOfBuy(p, u, from, id, value, nowMs, n);
        case SubmitPrivateAction(id, envelope) => ActionKeepsTime(p, u, from, id, envelope, nowMs, n, s.txCounter);
        case RevealAttack(id, attackId) => RevealKeepsTime(p, u, from, id, attackId, nowMs, n);
        case ClaimReward(id, attackId) => ClaimRewardKeepsTime(p, u, from, id, attackId, nowMs, n);
        case ClaimRefund(id) => ClaimRefundKeepsTime(p, u, from, id, nowMs, n);
        case SettleCreator(id) => SettleCreatorKeepsTime(p, u, from, id, nowMs, n);
      }
    } else {
      UnknownLobby(p, s, from, call, nowMs);
      SameKeepsTime(p, u, u, n);
    }
  }

  lemma TimelyIfKept(p: Protocol, s: State, t: State, n: nat)
    requires p.Valid() && KeepsTime(p, s, t, n)
    ensures Timely(p, t, n)
  {
  }

  lemma CreateKeepsTime(p: Protocol, s: State, from: Address, config: LobbyConfig, value: int, nowMs: int, hash: Hash, n: nat)
    requires p.Valid() && Timely(p, s, n) && hash !in s.rooms
    ensures KeepsTime(p, s, ApplyCreateLobby(p, s, from, config, value, nowMs, hash).state, n)
  {
    hide Timely, KeepsTime, Flying, IsLegalConfig;
    var tx := ApplyCreateLobby(p, s, from, config, value, nowMs, hash);
    if tx.Confirmed? {
      MintKeepsTime(p, s, tx.state, hash, n);
    } else {
      SameKeepsTime(p, s, s, n);
    }
  }

  lemma WriteKeepsTime(p: Protocol, s: State, from: Address, call: Call, nowMs: int)
    requires p.Valid() && Inv(s) && from != PROTOCOL_ESCROW_ADDRESS && Timely(p, s, s.txCounter)
    ensures KeepsTime(p, s, WriteContract(p, s, from, call, nowMs).state, s.txCounter + 1)
  {
    hide Inv, Timely, KeepsTime, ApplyCreateLobby, OpenGlobalDefense, ApplyJoinLobby, ApplyLeaveLobby, ApplyBuyDrone,
         ApplyPrivateAction, ApplyRevealAttack, ApplyClaimReward, ApplyClaimRefund, ApplySettleCreator;
    FreshId(s);
    var u, n := NextHash(s), s.txCounter + 1;
    SameKeepsTime(p, s, u, s.txCounter);
    TimelyIfKept(p, s, u, s.txCounter);
    MoreTransactions(p, s, u, s.txCounter, n);
    match call {
      case CreateLobby(config, value) => CreateKeepsTime(p, u, from, config, value, nowMs, n, n);
      case OpenDraw => OpenDrawKeepsTime(p, u, nowMs, n, n);
      case CollectProbe => SameKeepsTime(p, u, u, n);
      case _ => LobbyCallKeepsTime(p, s, from, call, nowMs);
    }
    KeepsTimeChains(p, s, u, WriteContract(p, s, from, call, nowMs).state, n);
  }

  /** One step of anything keeps every room on time and every point on file. */
  lemma NextKeepsTime(p: Protocol, s: State, step: Step)
    requires p.Valid() && Inv(s) && IsPlayerStep(step) && Timely(p, s, s.txCounter)
    ensures var t := Next(p, s, step); KeepsTime(p, s, t, t.txCounter)
  {
    hide Inv, Timely, KeepsTime, Continues, NothingOrphaned, SettleLobby, SettleRooms, SettleProtocolDraws, WriteContract,
         MaybeOpenGlobalDefense, MaybeTopUpGlobalDefense, OrphanedBy;
    var n, u := s.txCounter, Next(p, s, step);
    match step {
      case Mine(nowMs) =>
        var t := s.(block := s.block + 1);
        ClockKeeps(s);
        SameKeepsTime(p, s, t, n);
        TimelyIfKept(p, s, t, n);
        TopUpIdles(p, t);
        MaybeOpenKeepsTime(p, t, nowMs, n);
        KeepsTimeChains(p, s, t, u, n);
      case ReadLobby(id, nowMs) => SettleKeepsTime(p, s, id, nowMs, n);
      case ReadEverything(nowMs) => SettleEverythingKeepsTime(p, s, nowMs, n);
      case Inspect(nowMs) => SettleRoomsKeepTime(p, s, s.txCounter, nowMs, n);
      case Write(from, call, nowMs) => WriteKeepsTime(p, s, from, call, nowMs);
    }
    CounterOf(p, s, step);
    MoreTransactions(p, s, u, if step.Write? then n + 1 else n, u.txCounter);
  }

  lemma SettleEverythingKeepsTime(p: Protocol, s: State, nowMs: int, n: nat)
    requires p.Valid() && Inv(s) && Timely(p, s, n)
    ensures KeepsTime(p, s, SettleEverything(p, s, nowMs), n)
  {
    hide Inv, Timely, KeepsTime, SettleRooms, SettleProtocolDraws, MaybeTopUpGlobalDefense, MaybeOpenGlobalDefense, Continues,
         NothingOrphaned;
    var t := SettleRooms(p, s, s.txCounter, nowMs);
    var u := SettleProtocolDraws(t, s.txCounter);
    SettleRoomsKeep(p, s, s.txCounter, nowMs);
    SettleRoomsKeepTime(p, s, s.txCounter, nowMs, n);
    TimelyIfKept(p, s, t, n);
    SettleDrawsKeep(t, s.txCounter);
    SettleDrawsKeepTime(p, t, s.txCounter, n);
    TimelyIfKept(p, t, u, n);
    TopUpIdles(p, u);
    MaybeOpenKeepsTime(p, u, nowMs, n);
    KeepsTimeChains(p, s, t, u, n);
    KeepsTimeChains(p, s, u, SettleEverything(p, s, nowMs), n);
  }

  /** Only writes, and the keeper's own mint, take a transaction number. */
  lemma CounterOf(p: Protocol, s: State, step: Step)
    requires p.Valid() && Inv(s) && IsPlayerStep(step)
    ensures Next(p, s, step).txCounter >= s.txCounter + if step.Write? then 1 else 0
  {
    hide Inv, Continues, OrphanedBy, WriteContract, NothingOrphaned;
    NextKeeps(p, s, step);
    ContinuesCounts(s, Next(p, s, step));
    if step.Write? { WriteKeeps(p, s, step.from, step.call, step.nowMs); }
  }

  // --------------------------------------------------------------- whole runs

  lemma GenesisIsTimely(p: Protocol, initialBlock: int)
    requires p.Valid()
    ensures Timely(p, CreateEmulatorState(initialBlock), 0)
  {
  }

  lemma {:induction false} RunKeepsTime(p: Protocol, s: State, steps: seq<Step>)
    requires p.Valid() && Inv(s) && Timely(p, s, s.txCounter) && forall step :: step in steps ==> IsPlayerStep(step)
    ensures var t := Run(p, s, steps); KeepsTime(p, s, t, t.txCounter)
    decreases |steps|
  {
    hide Inv, Timely, KeepsTime, Next, Continues, Orphaned, IsPlayerStep;
    if steps == [] {
      SameKeepsTime(p, s, s, s.txCounter);
    } else {
      var before, last := steps[..|steps| - 1], steps[|steps| - 1];
      var t := Run(p, s, before);
      RunKeepsTime(p, s, before);
      RunKeeps(p, s, before);
      TimelyIfKept(p, s, t, t.txCounter);
      NextKeepsTime(p, t, last);
      NextKeeps(p, t, last);
      ContinuesCounts(t, Next(p, t, last));
      MoreTransactions(p, s, t, t.txCounter, Next(p, t, last).txCounter);
      KeepsTimeChains(p, s, t, Next(p, t, last), Next(p, t, last).txCounter);
    }
  }

  lemma ReachableIsTimely(p: Protocol, initialBlock: int, steps: seq<Step>)
    requires p.Valid() && forall step :: step in steps ==> IsPlayerStep(step)
    ensures var s := Run(p, CreateEmulatorState(initialBlock), steps); Inv(s) && Timely(p, s, s.txCounter)
  {
    hide Inv, Timely, KeepsTime, Run, Continues, Orphaned, IsPlayerStep;
    var g := CreateEmulatorState(initialBlock);
    GenesisIsSound(initialBlock);
    GenesisIsTimely(p, initialBlock);
    RunKeeps(p, g, steps);
    RunKeepsTime(p, g, steps);
    TimelyIfKept(p, g, Run(p, g, steps), Run(p, g, steps).txCounter);
  }

  /** A Defense Point, once placed, is on file for good: no later transaction of any run replaces or removes it. */
  lemma DefensesAreNeverOverwritten(p: Protocol, initialBlock: int, before: seq<Step>, after: seq<Step>, id: Hash, attempt: Hash)
    requires p.Valid() && forall step :: step in before + after ==> IsPlayerStep(step)
    ensures var s := Run(p, CreateEmulatorState(initialBlock), before);
            var t := Run(p, s, after);
            id in s.rooms && attempt in s.rooms[id].points ==>
              id in t.rooms && attempt in t.rooms[id].points && t.rooms[id].points[attempt] == s.rooms[id].points[attempt]
  {
    hide Inv, Timely, Run, IsPlayerStep;
    ReachableIsTimely(p, initialBlock, before);
    RunKeepsTime(p, Run(p, CreateEmulatorState(initialBlock), before), after);
  }

  // ----------------------------------------------------------- where a room is due

  /** When a room's attack lands, by the epoch it is bound to. */
  function ImpactOf(p: Protocol, r: Room): int
    requires p.limits.epochBlocks > 0 && r.currentEpochId.Some?
  {
    ScheduledAttack(p, r, r.currentEpochId.value).ImpactBlock()
  }

  /** The attack of a room whose terms and team are these, at this block. */
  function AttackDue(p: Protocol, r: Room, block: int): Option<Attack>
    requires p.limits.epochBlocks > 0 && r.currentEpochId.Some?
  {
    var attack := ScheduledAttack(p, r, r.currentEpochId.value);
    if block < r.config.deadlineBlock || r.participantCount < r.config.minPlayers then None
    else if block < attack.launchBlock then Some(attack)
    else if block < attack.ImpactBlock() then Some(attack.(status := AttackLaunched))
    else Some(attack.(status := AttackResolved))
  }

  function StatusDue(p: Protocol, r: Room, block: int): LobbyStatus
    requires p.limits.epochBlocks > 0 && r.currentEpochId.Some?
  {
    if block < r.config.deadlineBlock then Open
    else if r.participantCount < r.config.minPlayers then Cancelled
    else if block < ImpactOf(p, r) then Active
    else if WasActedIn(r) then Resolved else Cancelled
  }

  function EndingDue(p: Protocol, r: Room, block: int): LobbyEnding
    requires p.limits.epochBlocks > 0 && r.currentEpochId.Some?
  {
    match StatusDue(p, r, block)
    case Cancelled => Unplayed
    case Resolved => Completed
    case _ => NotEnded
  }

  /** The room is exactly where its terms, its team and the block put it, and its verdict is its own attempts'. */
  predicate IsDue(p: Protocol, r: Room, block: int)
    requires p.limits.epochBlocks > 0
  {
    && r.currentEpochId.Some?
    && (!r.ProtocolOwned() ==> r.currentEpochId.value == LaunchEpochFor(p, r, block))
    && r.status == StatusDue(p, r, block) && r.ending == EndingDue(p, r, block) && r.attack == AttackDue(p, r, block)
    && (r.outcome.Some? <==> r.attack.Some? && r.attack.value.status == AttackResolved)
    && (r.outcome.Some? ==>
          && Judgeable(r) && r.outcome.value.resolution == VerdictOf(p, r)
          && (Won(r) ==> r.outcome.value.rewardPerWinner == CalculateRewardPerWinner(r.ledger.rewardPool, |r.outcome.value.Winners()|)))
  }

  /** A scheduled attack waits for its launch, and lands no earlier. */
  lemma LaunchFirst(p: Protocol, r: Room)
    requires p.Valid() && r.currentEpochId.Some?
    ensures ScheduledAttack(p, r, r.currentEpochId.value).launchBlock <= ImpactOf(p, r)
    ensures ScheduledAttack(p, r, r.currentEpochId.value).status == AttackPending
  {
  }

  lemma SettledRoomIsDue(p: Protocol, s: State, id: Hash, nowMs: int, n: nat)
    requires p.Valid() && Inv(s) && Timely(p, s, n) && id in s.rooms && s.rooms[id].config.deadlineBlock > 0
    requires SettleLobby(p, s, id, nowMs) == s
    ensures IsDue(p, s.rooms[id], s.block)
  {
    hide Solvent, DrawsOk, JackpotOk, AtRest, SettleLobby, RoomOk, VerdictOf, WasActedIn, ScheduledAttack, LaunchEpochFor;
    var r := s.rooms[id];
    SolventRoom(s, id);
    Stages(r);
    Verdicts(r);
    Resting(s, id);
    if r.status == Open {
      OpenMeansOpen(p, s, id, nowMs);
    } else if r.status == Active {
      ActiveIsDue(p, s, id, nowMs);
    }
    LaunchFirst(p, r);
  }

  lemma Verdicts(r: Room)
    requires RoomOk(r)
    ensures r.status in {Open, Ready, Active} ==> r.outcome.None?
    ensures r.status == Cancelled ==> r.ending == Unplayed
    ensures r.status == Resolved ==> r.ending == Completed && r.attack.Some? && r.attack.value.status == AttackResolved
    ensures Won(r) ==> r.outcome.value.rewardPerWinner == CalculateRewardPerWinner(r.ledger.rewardPool, |r.outcome.value.Winners()|)
  {
    hide BooksOk, AttemptsOk;
  }

  /** A settled active room is still flying, or has yet to launch. */
  lemma ActiveIsDue(p: Protocol, s: State, id: Hash, nowMs: int)
    requires p.Valid() && Inv(s) && id in s.rooms && s.rooms[id].status == Active && SettleLobby(p, s, id, nowMs) == s
    ensures s.rooms[id].attack.Some? && s.block < s.rooms[id].attack.value.ImpactBlock()
    ensures s.rooms[id].attack.value.status == AttackPending ==> s.block < s.rooms[id].attack.value.launchBlock
  {
    hide Solvent, DrawsOk, JackpotOk, AtRest, SettleLobby, AdvanceAttack, AdvancedForfeit, ConcludedRoom;
    InvParts(s);
    ActiveSettles(p, s, id, nowMs);
    AdvanceIs(p, s, id);
    if Lands(s.rooms[id], s.block) { ConcludedEnds(p, LaunchedRoom(s.rooms[id], s.block), s.block); }
  }

  /**
   * After any run of any writes, reads and blocks, by anybody, of any room: a lobby with a block deadline, once looked at,
   * is exactly where its terms, its team and the current block put it. Who looked on the way, and when, leaves no trace in
   * its status, its ending, its epoch, its launch and impact blocks, its verdict or its reward.
   */
  lemma AnyRunIsOnTime(p: Protocol, initialBlock: int, steps: seq<Step>, id: Hash, nowMs: int)
    requires p.Valid() && forall step :: step in steps ==> IsPlayerStep(step)
    ensures var t := SettleLobby(p, Run(p, CreateEmulatorState(initialBlock), steps), id, nowMs);
            id in t.rooms && t.rooms[id].config.deadlineBlock > 0 ==> IsDue(p, t.rooms[id], t.block)
  {
    hide Inv, Timely, KeepsTime, Run, IsPlayerStep, SettleLobby, IsDue;
    var s := Run(p, CreateEmulatorState(initialBlock), steps);
    var t := SettleLobby(p, s, id, nowMs);
    ReachableIsTimely(p, initialBlock, steps);
    if id in s.rooms && t.rooms[id].config.deadlineBlock > 0 {
      SettledFirst(p, s, id, nowMs, s.txCounter);
      SettledRoomIsDue(p, t, id, nowMs, s.txCounter);
    }
  }

  /**
   * Two histories of one chain may differ in every read, and in what happened to every other room: a lobby that has the
   * same terms and team in both, and was acted in in both or neither, is in the same place at the same block; and with the
   * same path and the same Defenses it has the same verdict and the same winners.
   */
  lemma HistoriesAgree(p: Protocol, b1: int, steps1: seq<Step>, b2: int, steps2: seq<Step>, id: Hash, n1: int, n2: int)
    requires p.Valid() && forall step :: step in steps1 + steps2 ==> IsPlayerStep(step)
    ensures var t := SettleLobby(p, Run(p, CreateEmulatorState(b1), steps1), id, n1);
            var u := SettleLobby(p, Run(p, CreateEmulatorState(b2), steps2), id, n2);
            id in t.rooms && id in u.rooms && t.block == u.block ==>
              var r, q := t.rooms[id], u.rooms[id];
              r.config == q.config && r.config.deadlineBlock > 0 && r.participantCount == q.participantCount
              && !r.ProtocolOwned() && !q.ProtocolOwned() && WasActedIn(r) == WasActedIn(q) ==>
                && r.status == q.status && r.ending == q.ending && r.currentEpochId == q.currentEpochId && r.attack == q.attack
                && (r.outcome.Some? <==> q.outcome.Some?)
                && (r.outcome.Some? && r.trajectory == q.trajectory && r.attempts == q.attempts && r.points == q.points ==>
                      r.outcome.value.resolution == q.outcome.value.resolution)
  {
    hide Run, IsPlayerStep, SettleLobby, VerdictOf, WasActedIn;
    AnyRunIsOnTime(p, b1, steps1, id, n1);
    AnyRunIsOnTime(p, b2, steps2, id, n2);
    var t := SettleLobby(p, Run(p, CreateEmulatorState(b1), steps1), id, n1);
    var u := SettleLobby(p, Run(p, CreateEmulatorState(b2), steps2), id, n2);
    if id in t.rooms && id in u.rooms && t.block == u.block {
      var r, q := t.rooms[id], u.rooms[id];
      if r.config == q.config && r.attack == q.attack && r.trajectory == q.trajectory && r.attempts == q.attempts
         && r.points == q.points && Judgeable(r) {
        SameVerdict(p, r, q);
      }
    }
  }
}
