/** Settling lazily, whenever somebody happens to look, gives what settling at every block would have given. */
module LazySettlement {
  import opened Sums
  import opened Options
  import opened World
  import opened Interception
  import opened EmulatorState
  import opened GameContract
  import opened Accounting
  import opened RoomMoves
  import opened RoomHistory
  import opened Jackpot
  import opened Solvency
  import opened Runs

  // ------------------------------------------------------------- one active room

  function LaunchedRoom(r: Room, block: int): Room
    requires r.attack.Some?
  {
    if r.attack.value.status == AttackPending && block >= r.attack.value.launchBlock
    then r.(attack := Some(r.attack.value.(status := AttackLaunched))) else r
  }

  predicate Lands(r: Room, block: int)
    requires r.attack.Some?
  {
    LaunchedRoom(r, block).attack.value.status == AttackLaunched && block >= r.attack.value.ImpactBlock()
  }

  /** What an active room has become by `block`. */
  function AdvancedRoom(p: Protocol, r: Room, block: int): Room
    requires Judgeable(r)
  {
    if Lands(r, block) then ConcludedRoom(p, LaunchedRoom(r, block), block) else LaunchedRoom(r, block)
  }

  function AdvancedForfeit(p: Protocol, r: Room, block: int): int
    requires Judgeable(r)
  {
    if Lands(r, block) then Forfeited(p, LaunchedRoom(r, block)) else 0
  }

  lemma AdvanceIs(p: Protocol, s: State, id: Hash)
    requires p.Valid() && Solvent(s) && DrawsOk(s) && AtRest(s) && id in s.rooms && s.rooms[id].status == Active
    ensures Judgeable(s.rooms[id]) && s.rooms[id].attack.value.status != AttackResolved
    ensures AdvanceAttack(p, s, id)
            == Put(s, id, AdvancedRoom(p, s.rooms[id], s.block)).(pool := s.pool + AdvancedForfeit(p, s.rooms[id], s.block))
  {
    hide Solvent, DrawsOk, ResolveRoom, Forfeited, ConcludedRoom, OnlyRoom, Conclude;
    LaunchedStateKeeps(s, id);
    var launched := LaunchedState(s, id);
    assert launched.rooms[id] == LaunchedRoom(s.rooms[id], s.block);
    LaunchedRests(s, id);
    if Lands(s.rooms[id], s.block) {
      ResolveIsConclude(p, launched, id);
      ConcludeIs(p, launched, id);
      assert s.rooms[id := launched.rooms[id]][id := AdvancedRoom(p, s.rooms[id], s.block)]
             == s.rooms[id := AdvancedRoom(p, s.rooms[id], s.block)];
    } else {
      assert Put(s, id, s.rooms[id]) == s;
    }
  }

  lemma ConcludeIs(p: Protocol, s: State, id: Hash)
    requires id in s.rooms && Judgeable(s.rooms[id])
    ensures Conclude(p, s, id) == Put(s, id, ConcludedRoom(p, s.rooms[id], s.block)).(pool := s.pool + Forfeited(p, s.rooms[id]))
  {
  }

  lemma LaunchedRests(s: State, id: Hash)
    requires Solvent(s) && DrawsOk(s) && AtRest(s) && id in s.rooms && s.rooms[id].status == Active
    requires s.rooms[id].attack.Some?
    ensures DrawsOk(LaunchedState(s, id)) && AtRest(LaunchedState(s, id))
  {
    hide Solvent, Evolves, PoolTerm, Orphaned;
    LaunchedStateKeeps(s, id);
    OnlyRoomKeepsDraws(s, LaunchedState(s, id), id);
  }

  // ------------------------------------------------------------------ likeness

  predicate AlikeOutcomes(x: Option<AttackOutcome>, y: Option<AttackOutcome>) {
    (x.None? && y.None?) || (x.Some? && y.Some? && y.value == x.value.(resolvedAtBlock := y.value.resolvedAtBlock))
  }

  /** Equal but for when they were resolved and, if nobody ever placed a Defense, for the path that was drawn. */
  predicate AlikeRooms(r: Room, t: Room) {
    && t == r.(trajectory := t.trajectory, outcome := t.outcome)
    && (r.trajectory.Some? <==> t.trajectory.Some?)
    && (r.trajectory == t.trajectory || r.attempts == [])
    && AlikeOutcomes(r.outcome, t.outcome)
  }

  /** Everything else about the states is equal: clock, balances, pool, draws, other rooms. */
  predicate Alike(s: State, t: State, id: Hash) {
    && id in s.rooms && id in t.rooms && t == s.(rooms := s.rooms[id := t.rooms[id]])
    && AlikeRooms(s.rooms[id], t.rooms[id])
  }

  lemma AlikeChains(s: State, t: State, u: State, id: Hash)
    requires Alike(s, t, id) && Alike(t, u, id)
    ensures Alike(s, u, id)
  {
    assert s.rooms[id := t.rooms[id]][id := u.rooms[id]] == s.rooms[id := u.rooms[id]];
  }

  lemma SameIsAlike(s: State, id: Hash)
    requires id in s.rooms
    ensures Alike(s, s, id)
  {
    assert s.rooms[id := s.rooms[id]] == s.rooms;
  }

  /** With the same path the verdict is the same; without attempts the path does not matter. */
  lemma VerdictsAgree(p: Protocol, r: Room, t: Room)
    requires AlikeRooms(r, t) && Judgeable(r)
    ensures Judgeable(t) && VerdictOf(p, r) == VerdictOf(p, t) && WasActedIn(r) == WasActedIn(t)
  {
    hide ResolveAttack;
    assert OpenedAttempts(r) == OpenedAttempts(t);
    if r.trajectory != t.trajectory {
      assert OpenedAttempts(r) == [];
      NoAttemptsNoVerdict(SceneOf(p, r));
      NoAttemptsNoVerdict(SceneOf(p, t));
    } else {
      assert SceneOf(p, r) == SceneOf(p, t);
    }
    assert VerdictOf(p, r) == ResolveAttack(OpenedAttempts(r), SceneOf(p, r));
    assert VerdictOf(p, t) == ResolveAttack(OpenedAttempts(t), SceneOf(p, t));
  }

  lemma NoAttemptsNoVerdict(s: Scene)
    ensures ResolveAttack([], s) == NotStopped
  {
  }

  lemma ConcludedAlike(p: Protocol, r: Room, t: Room, b1: int, b2: int)
    requires AlikeRooms(r, t) && Judgeable(r)
    ensures Judgeable(t) && AlikeRooms(ConcludedRoom(p, r, b1), ConcludedRoom(p, t, b2))
    ensures Forfeited(p, r) == Forfeited(p, t)
  {
    hide VerdictOf, WasActedIn;
    VerdictsAgree(p, r, t);
  }

  lemma AdvancedAlike(p: Protocol, r: Room, t: Room, block: int)
    requires AlikeRooms(r, t) && Judgeable(r)
    ensures Judgeable(t) && AlikeRooms(AdvancedRoom(p, r, block), AdvancedRoom(p, t, block))
    ensures AdvancedForfeit(p, r, block) == AdvancedForfeit(p, t, block)
  {
    hide ConcludedRoom, Forfeited;
    ConcludedAlike(p, LaunchedRoom(r, block), LaunchedRoom(t, block), block, block);
  }

  /** Looking at `b1` on the way to `b2` changes nothing that is there at `b2`. */
  lemma AdvancedTwice(p: Protocol, r: Room, b1: int, b2: int)
    requires Judgeable(r) && r.status == Active && r.attack.value.status != AttackResolved && b1 <= b2
    ensures Lands(r, b1) ==> AlikeRooms(AdvancedRoom(p, r, b1), AdvancedRoom(p, r, b2))
                             && AdvancedForfeit(p, r, b1) == AdvancedForfeit(p, r, b2)
    ensures !Lands(r, b1) ==> Judgeable(AdvancedRoom(p, r, b1)) && AdvancedForfeit(p, r, b1) == 0
                              && AdvancedRoom(p, AdvancedRoom(p, r, b1), b2) == AdvancedRoom(p, r, b2)
                              && AdvancedForfeit(p, AdvancedRoom(p, r, b1), b2) == AdvancedForfeit(p, r, b2)
  {
    hide ConcludedRoom, Forfeited;
    if Lands(r, b1) {
      ConcludedAlike(p, LaunchedRoom(r, b1), LaunchedRoom(r, b2), b1, b2);
    }
  }

  // -------------------------------------------------------------- whole states

  function At(s: State, block: int): State { s.(block := block) }

  lemma RefundSeatAt(s: State, id: Hash, a: Address, block: int)
    requires id in s.rooms
    ensures RefundSeat(At(s, block), id, a) == At(RefundSeat(s, id, a), block)
  {
  }

  lemma {:induction false} RefundSeatsAt(s: State, id: Hash, addresses: seq<Address>, block: int)
    requires id in s.rooms
    ensures RefundSeats(At(s, block), id, addresses) == At(RefundSeats(s, id, addresses), block)
    decreases |addresses|
  {
    hide RefundSeat;
    if addresses != [] {
      RefundSeatAt(s, id, addresses[0], block);
      RefundSeatsAt(RefundSeat(s, id, addresses[0]), id, addresses[1..], block);
    }
  }

  /** Paying an unfilled room out does not depend on the block. */
  lemma PayoutUnplayedAt(s: State, id: Hash, block: int)
    requires id in s.rooms
    ensures PayoutUnplayed(At(s, block), id) == At(PayoutUnplayed(s, id), block)
  {
    hide RefundSeats, RefundSeat;
    RefundSeatsAt(s, id, s.rooms[id].participantAddresses, block);
  }

  lemma AtKeeps(s: State, block: int)
    requires Inv(s)
    ensures Inv(At(s, block))
  {
    hide Sum, RoomOk, PoolTerm;
  }

  /** Closing on a filled room starts it at once; what remains is to advance its attack. */
  lemma StartedIs(p: Protocol, s: State, id: Hash, nowMs: int)
    requires p.Valid() && Inv(s) && id in s.rooms && s.rooms[id].status == Open
    requires DeadlinePassed(s.rooms[id].config, s.block, nowMs)
    requires s.rooms[id].participantCount >= s.rooms[id].config.minPlayers
    ensures var t := Activate(p, Put(s, id, s.rooms[id].(status := Ready)), id);
            && Solvent(t) && DrawsOk(t) && AtRest(t) && t.rooms[id].status == Active
            && SettleLobby(p, s, id, nowMs) == AdvanceAttack(p, t, id)
  {
    hide Solvent, JackpotOk, PayoutUnplayed, AdvanceAttack, ActivatedRoom, Evolves, PoolTerm, Orphaned;
    var closed := CloseApplications(s, id, nowMs);
    CloseKeeps(s, id, nowMs);
    ActivateKeeps(p, closed, id);
    OnlyRoomKeepsDraws(s, closed, id);
    OnlyRoomKeepsDraws(closed, Activate(p, closed, id), id);
  }

  /** A player's room takes nothing from the pool when it starts. */
  lemma StartedPlain(p: Protocol, s: State, id: Hash)
    requires p.Valid() && id in s.rooms && !s.rooms[id].ProtocolOwned()
    ensures Activate(p, Put(s, id, s.rooms[id].(status := Ready)), id)
            == Put(s, id, ActivatedRoom(p, s.rooms[id].(status := Ready), id, s.block, 0))
  {
    hide ActivatedRoom;
    var ready := s.rooms[id].(status := Ready);
    var started := ActivatedRoom(p, ready, id, s.block, 0);
    assert s.rooms[id := ready][id := started] == s.rooms[id := started];
  }

  /** Before anybody has played, nothing has been attempted, resolved or drawn. */
  lemma FormingIsBlank(r: Room)
    requires RoomOk(r) && r.status == Open
    ensures r.attempts == [] && r.outcome.None? && r.trajectory.None?
  {
    hide BooksOk, AttemptsOk;
  }

  /** Two rooms that differ only in the block they were started on draw different paths and nothing else. */
  lemma ActivatedAlike(p: Protocol, r: Room, id: Hash, b1: int, b2: int)
    requires p.Valid() && r.config.deadlineBlock > 0 && r.attempts == [] && r.outcome.None?
    ensures AlikeRooms(ActivatedRoom(p, r, id, b1, 0), ActivatedRoom(p, r, id, b2, 0))
  {
  }

  lemma ActiveSettles(p: Protocol, s: State, id: Hash, nowMs: int)
    requires p.Valid() && id in s.rooms && s.rooms[id].status == Active
    ensures SettleLobby(p, s, id, nowMs) == AdvanceAttack(p, s, id)
  {
  }

  /** Likeness survives settlement. */
  lemma SettleAlike(p: Protocol, s: State, t: State, id: Hash, nowMs: int)
    requires p.Valid() && Inv(s) && Inv(t) && Alike(s, t, id)
    ensures Alike(SettleLobby(p, s, id, nowMs), SettleLobby(p, t, id, nowMs), id)
  {
    hide Solvent, DrawsOk, JackpotOk, AdvanceAttack, AdvancedRoom, AdvancedForfeit, SettleLobby, RoomOk;
    var r, q := s.rooms[id], t.rooms[id];
    if r.status == Active {
      ActiveSettles(p, s, id, nowMs);
      ActiveSettles(p, t, id, nowMs);
      AdvanceIs(p, s, id);
      AdvanceIs(p, t, id);
      AdvancedAlike(p, r, q, s.block);
      PutAlike(s, t, id, AdvancedRoom(p, r, s.block), AdvancedRoom(p, q, s.block), AdvancedForfeit(p, r, s.block));
    } else if r.status == Open {
      SolventRoom(s, id);
      SolventRoom(t, id);
      FormingIsBlank(r);
      FormingIsBlank(q);
      assert q == r && t.rooms == s.rooms;
      SettlesKnown(p, s, id, nowMs);
      SameIsAlike(SettleLobby(p, s, id, nowMs), id);
    } else {
      FinishedSettles(p, s, id, nowMs);
      FinishedSettles(p, t, id, nowMs);
    }
  }

  lemma SettlesKnown(p: Protocol, s: State, id: Hash, nowMs: int)
    requires p.Valid() && id in s.rooms
    ensures id in SettleLobby(p, s, id, nowMs).rooms
  {
    hide SettleLobby;
  }

  lemma FinishedSettles(p: Protocol, s: State, id: Hash, nowMs: int)
    requires p.Valid() && (id in s.rooms ==> s.rooms[id].status in {Resolved, Cancelled})
    ensures SettleLobby(p, s, id, nowMs) == s
  {
  }

  lemma PutAlike(s: State, t: State, id: Hash, r: Room, q: Room, toPool: int)
    requires Alike(s, t, id) && AlikeRooms(r, q)
    ensures Alike(Put(s, id, r).(pool := s.pool + toPool), Put(t, id, q).(pool := t.pool + toPool), id)
  {
    assert s.rooms[id := t.rooms[id]][id := q] == s.rooms[id := r][id := q];
  }

  /** An active room, looked at on the way and at the end. */
  lemma ActiveTwice(p: Protocol, s: State, id: Hash, later: int, n2: int)
    requires p.Valid() && Solvent(s) && DrawsOk(s) && AtRest(s) && id in s.rooms && s.rooms[id].status == Active
    requires s.block <= later
    ensures var once := AdvanceAttack(p, At(s, later), id);
            Alike(SettleLobby(p, At(AdvanceAttack(p, s, id), later), id, n2), once, id)
  {
    hide Solvent, DrawsOk, JackpotOk, AdvanceAttack, SettleLobby, AdvancedForfeit, ConcludedRoom, Evolves, PoolTerm,
         Orphaned;
    var r := s.rooms[id];
    AdvanceIs(p, s, id);
    SolventAt(s, later);
    AdvanceIs(p, At(s, later), id);
    AdvancedTwice(p, r, s.block, later);
    var half := At(AdvanceAttack(p, s, id), later);
    var r1, r2 := AdvancedRoom(p, r, s.block), AdvancedRoom(p, r, later);
    if Lands(r, s.block) {
      ConcludedEnds(p, LaunchedRoom(r, s.block), s.block);
      FinishedSettles(p, half, id, n2);
      assert s.rooms[id := r1][id := r2] == s.rooms[id := r2];
    } else {
      AdvanceKeeps(p, s, id);
      OnlyRoomKeepsDraws(s, AdvanceAttack(p, s, id), id);
      SolventAt(AdvanceAttack(p, s, id), later);
      ActiveSettles(p, half, id, n2);
      AdvanceIs(p, half, id);
      assert s.rooms[id := r1][id := r2] == s.rooms[id := r2];
      SameIsAlike(AdvanceAttack(p, At(s, later), id), id);
    }
  }

  lemma ConcludedEnds(p: Protocol, r: Room, block: int)
    requires Judgeable(r)
    ensures ConcludedRoom(p, r, block).status in {Resolved, Cancelled}
  {
    hide VerdictOf;
  }

  lemma SolventAt(s: State, block: int)
    requires Solvent(s)
    ensures Solvent(At(s, block)) && DrawsOk(At(s, block)) == DrawsOk(s) && AtRest(At(s, block)) == AtRest(s)
  {
    hide Sum, RoomOk;
  }

  /** The same lobby started on two different blocks, then brought to the later one. */
  lemma StartedEitherBlock(p: Protocol, s: State, id: Hash, r: Room, later: int)
    requires p.Valid() && id in s.rooms && r.config.deadlineBlock > 0 && r.attempts == [] && r.outcome.None?
    requires var t1 := Put(s, id, ActivatedRoom(p, r, id, s.block, 0));
             var t2 := Put(At(s, later), id, ActivatedRoom(p, r, id, later, 0));
             Solvent(t1) && DrawsOk(t1) && AtRest(t1) && Solvent(t2) && DrawsOk(t2) && AtRest(t2)
             && t1.rooms[id].status == Active && t2.rooms[id].status == Active
    ensures Alike(AdvanceAttack(p, At(Put(s, id, ActivatedRoom(p, r, id, s.block, 0)), later), id),
                  AdvanceAttack(p, Put(At(s, later), id, ActivatedRoom(p, r, id, later, 0)), id), id)
  {
    hide Solvent, DrawsOk, AtRest, AdvanceAttack, ActivatedRoom, AdvancedRoom, AdvancedForfeit, AlikeRooms;
    var t1 := Put(s, id, ActivatedRoom(p, r, id, s.block, 0));
    var t2 := Put(At(s, later), id, ActivatedRoom(p, r, id, later, 0));
    ActivatedAlike(p, r, id, s.block, later);
    SolventAt(t1, later);
    AdvanceIs(p, At(t1, later), id);
    AdvanceIs(p, t2, id);
    AdvancedAlike(p, t1.rooms[id], t2.rooms[id], later);
    assert s.rooms[id := t1.rooms[id]][id := t2.rooms[id]] == s.rooms[id := t2.rooms[id]];
    PutAlike(At(t1, later), t2, id, AdvancedRoom(p, t1.rooms[id], later), AdvancedRoom(p, t2.rooms[id], later),
             AdvancedForfeit(p, t1.rooms[id], later));
  }

  /** A lobby still taking applications, filled, whose deadline had already passed on the way. */
  lemma OpenTwice(p: Protocol, s: State, id: Hash, n1: int, later: int, n2: int)
    requires p.Valid() && Inv(s) && id in s.rooms && s.rooms[id].status == Open && !s.rooms[id].ProtocolOwned()
    requires s.block <= later && 0 < s.rooms[id].config.deadlineBlock <= s.block
    requires s.rooms[id].participantCount >= s.rooms[id].config.minPlayers
    ensures Alike(SettleLobby(p, At(SettleLobby(p, s, id, n1), later), id, n2), SettleLobby(p, At(s, later), id, n2), id)
  {
    hide Inv, Solvent, DrawsOk, AtRest, AdvanceAttack, SettleLobby, ActivatedRoom, Activate, RoomOk, Alike;
    var ready := s.rooms[id].(status := Ready);
    var t1 := Put(s, id, ActivatedRoom(p, ready, id, s.block, 0));
    StartedIs(p, s, id, n1);
    StartedPlain(p, s, id);
    AtKeeps(s, later);
    StartedIs(p, At(s, later), id, n2);
    StartedPlain(p, At(s, later), id);
    OpenIsBlank(s, id);
    ActiveTwice(p, t1, id, later, n2);
    StartedEitherBlock(p, s, id, ready, later);
    AlikeChains(SettleLobby(p, At(SettleLobby(p, s, id, n1), later), id, n2), AdvanceAttack(p, At(t1, later), id),
                SettleLobby(p, At(s, later), id, n2), id);
  }

  lemma OpenIsBlank(s: State, id: Hash)
    requires Inv(s) && id in s.rooms && s.rooms[id].status == Open
    ensures s.rooms[id].attempts == [] && s.rooms[id].outcome.None?
  {
    hide RoomOk, Solvent, JackpotOk;
    SolventRoom(s, id);
    FormingIsBlank(s.rooms[id]);
  }

  function CalledOffRoom(r: Room): Room { r.(status := Cancelled, ending := Unplayed) }

  /** Closing on an unfilled room pays everybody back at once; the block does not matter. */
  lemma UnfilledIs(p: Protocol, s: State, id: Hash, nowMs: int)
    requires p.Valid() && Inv(s) && id in s.rooms && s.rooms[id].status == Open
    requires DeadlinePassed(s.rooms[id].config, s.block, nowMs)
    requires s.rooms[id].participantCount < s.rooms[id].config.minPlayers
    ensures var t := SettleLobby(p, s, id, nowMs);
            t == PayoutUnplayed(Put(s, id, CalledOffRoom(s.rooms[id])), id) && id in t.rooms && t.rooms[id].status == Cancelled
  {
    hide Inv, PayoutUnplayed;
    var c := Put(s, id, CalledOffRoom(s.rooms[id]));
    CancelledIsSolvent(s, id);
    PayoutUnplayedKeeps(c, id);
  }

  lemma UnfilledTwice(p: Protocol, s: State, id: Hash, n1: int, later: int, n2: int)
    requires p.Valid() && Inv(s) && id in s.rooms && s.rooms[id].status == Open
    requires s.block <= later && 0 < s.rooms[id].config.deadlineBlock <= s.block
    requires s.rooms[id].participantCount < s.rooms[id].config.minPlayers
    ensures SettleLobby(p, At(SettleLobby(p, s, id, n1), later), id, n2) == SettleLobby(p, At(s, later), id, n2)
  {
    hide PayoutUnplayed, Inv, SettleLobby;
    UnfilledIs(p, s, id, n1);
    AtKeeps(s, later);
    UnfilledIs(p, At(s, later), id, n2);
    PayoutUnplayedAt(Put(s, id, CalledOffRoom(s.rooms[id])), id, later);
    FinishedSettles(p, At(SettleLobby(p, s, id, n1), later), id, n2);
  }

  lemma CancelledIsSolvent(s: State, id: Hash)
    requires Inv(s) && id in s.rooms && s.rooms[id].status == Open
    ensures Solvent(Put(s, id, CalledOffRoom(s.rooms[id])))
  {
    hide Solvent, PoolTerm;
    UnfilledIsSound(s, id);
  }

  /** Settling now and again later is settling later. */
  lemma SettleTwice(p: Protocol, s: State, id: Hash, n1: int, later: int, n2: int)
    requires p.Valid() && Inv(s) && id in s.rooms && !s.rooms[id].ProtocolOwned()
    requires s.rooms[id].config.deadlineBlock > 0
    requires s.block <= later
    ensures Alike(SettleLobby(p, At(SettleLobby(p, s, id, n1), later), id, n2), SettleLobby(p, At(s, later), id, n2), id)
  {
    hide Solvent, DrawsOk, JackpotOk, AdvanceAttack, SettleLobby;
    var r := s.rooms[id];
    SettlesKnown(p, At(s, later), id, n2);
    if r.status == Open {
      if s.block < r.config.deadlineBlock {
        StillOpen(p, s, id, n1);
        SameIsAlike(SettleLobby(p, At(s, later), id, n2), id);
      } else if r.participantCount >= r.config.minPlayers {
        OpenTwice(p, s, id, n1, later, n2);
      } else {
        UnfilledTwice(p, s, id, n1, later, n2);
        SameIsAlike(SettleLobby(p, At(s, later), id, n2), id);
      }
    } else if r.status == Active {
      ActiveSettles(p, s, id, n1);
      ActiveSettles(p, At(s, later), id, n2);
      ActiveTwice(p, s, id, later, n2);
    } else {
      FinishedSettles(p, s, id, n1);
      SameIsAlike(SettleLobby(p, At(s, later), id, n2), id);
    }
  }

  lemma StillOpen(p: Protocol, s: State, id: Hash, nowMs: int)
    requires p.Valid() && id in s.rooms && s.rooms[id].status == Open && s.block < s.rooms[id].config.deadlineBlock
    requires s.rooms[id].config.deadlineBlock > 0
    ensures SettleLobby(p, s, id, nowMs) == s
  {
  }

  // ------------------------------------------------------------- many visits

  datatype Visit = Visit(block: int, nowMs: int)

  predicate InOrder(from: int, visits: seq<Visit>) {
    && (forall i :: 0 <= i < |visits| ==> from <= visits[i].block)
    && forall i, j :: 0 <= i < j < |visits| ==> visits[i].block <= visits[j].block
  }

  /** The lobby looked at, and so settled, at each visit. */
  function Visited(p: Protocol, s: State, id: Hash, visits: seq<Visit>): State
    requires p.limits.epochBlocks > 0
    decreases |visits|
  {
    if visits == [] then s
    else
      var last := visits[|visits| - 1];
      SettleLobby(p, At(Visited(p, s, id, visits[..|visits| - 1]), last.block), id, last.nowMs)
  }

  lemma {:induction false} VisitsKeep(p: Protocol, s: State, id: Hash, visits: seq<Visit>)
    requires p.Valid() && Inv(s)
    ensures Inv(Visited(p, s, id, visits))
    decreases |visits|
  {
    hide Inv, SettleLobby, OnlyRoom;
    if visits != [] {
      var before, last := visits[..|visits| - 1], visits[|visits| - 1];
      VisitsKeep(p, s, id, before);
      AtKeeps(Visited(p, s, id, before), last.block);
      SettleKeeps(p, At(Visited(p, s, id, before), last.block), id, last.nowMs);
    }
  }

  lemma {:induction false} VisitsAreAlike(p: Protocol, s: State, id: Hash, visits: seq<Visit>)
    requires p.Valid() && Inv(s) && id in s.rooms && !s.rooms[id].ProtocolOwned()
    requires s.rooms[id].config.deadlineBlock > 0
    requires visits != [] && InOrder(s.block, visits)
    ensures var last := visits[|visits| - 1];
            Alike(Visited(p, s, id, visits), SettleLobby(p, At(s, last.block), id, last.nowMs), id)
    decreases |visits|
  {
    hide Inv, SettleLobby, Alike, OnlyRoom;
    var before, last := visits[..|visits| - 1], visits[|visits| - 1];
    var lazily := SettleLobby(p, At(s, last.block), id, last.nowMs);
    if before == [] {
      SettlesKnown(p, At(s, last.block), id, last.nowMs);
      SameIsAlike(lazily, id);
    } else {
      var prior := before[|before| - 1];
      VisitsAreAlike(p, s, id, before);
      var eager, once := Visited(p, s, id, before), SettleLobby(p, At(s, prior.block), id, prior.nowMs);
      AtKeeps(s, prior.block);
      SettleKeeps(p, At(s, prior.block), id, prior.nowMs);
      VisitsKeep(p, s, id, before);
      AtKeeps(eager, last.block);
      AtKeeps(once, last.block);
      AlikeAt(eager, once, id, last.block);
      SettleAlike(p, At(eager, last.block), At(once, last.block), id, last.nowMs);
      SettleTwice(p, At(s, prior.block), id, prior.nowMs, last.block, last.nowMs);
      AlikeChains(Visited(p, s, id, visits), SettleLobby(p, At(once, last.block), id, last.nowMs), lazily, id);
    }
  }

  lemma AlikeAt(s: State, t: State, id: Hash, block: int)
    requires Alike(s, t, id)
    ensures Alike(At(s, block), At(t, block), id)
  {
  }

  /**
   * A player's lobby with a block deadline, however often it was looked at on the way: status, ending, epoch, launch
   * and impact blocks, seats, books, every balance and the draw pool are as if it had only been looked at now - and
   * so are the verdict, its winners and their reward.
   */
  lemma LazyRefinesEager(p: Protocol, s: State, id: Hash, visits: seq<Visit>)
    requires p.Valid() && Inv(s) && id in s.rooms && !s.rooms[id].ProtocolOwned()
    requires s.rooms[id].config.deadlineBlock > 0
    requires visits != [] && InOrder(s.block, visits)
    ensures var last := visits[|visits| - 1];
            var eager, lazily := Visited(p, s, id, visits), SettleLobby(p, At(s, last.block), id, last.nowMs);
            && id in eager.rooms && id in lazily.rooms
            && eager.accounts == lazily.accounts && eager.pool == lazily.pool && eager.draws == lazily.draws
            && var r, t := eager.rooms[id], lazily.rooms[id];
            && r.status == t.status && r.ending == t.ending && r.currentEpochId == t.currentEpochId
            && r.attack == t.attack
            && r.seats == t.seats && r.ledger == t.ledger && r.participantAddresses == t.participantAddresses
            && (r.outcome.Some? <==> t.outcome.Some?)
            && (r.outcome.Some? ==> r.outcome.value.resolution == t.outcome.value.resolution
                                    && r.outcome.value.rewardPerWinner == t.outcome.value.rewardPerWinner)
            && (s.rooms[id].attack.Some? ==> r.trajectory == t.trajectory == s.rooms[id].trajectory)
  {
    hide Inv, SettleLobby, Visited, InOrder;
    VisitsAreAlike(p, s, id, visits);
    var last := visits[|visits| - 1];
    if s.rooms[id].attack.Some? {
      VisitsKeepThePath(p, s, id, visits);
      AtKeeps(s, last.block);
      PathStays(p, At(s, last.block), id, last.nowMs);
    }
  }

  /** Once drawn, a path is never drawn again. */
  lemma PathStays(p: Protocol, s: State, id: Hash, nowMs: int)
    requires p.Valid() && Inv(s) && id in s.rooms && s.rooms[id].attack.Some?
    ensures var t := SettleLobby(p, s, id, nowMs);
            Inv(t) && id in t.rooms && t.rooms[id].attack.Some? && t.rooms[id].trajectory == s.rooms[id].trajectory
  {
    hide Solvent, DrawsOk, JackpotOk, SettleLobby, RoomOk, Orphaned, PoolTerm, KeepsEnding;
    SettleKeeps(p, s, id, nowMs);
    SolventRoom(s, id);
    AttackHasItsPath(s.rooms[id]);
  }

  lemma AttackHasItsPath(r: Room)
    requires RoomOk(r) && r.attack.Some?
    ensures r.trajectory.Some?
  {
    hide BooksOk, AttemptsOk;
  }

  lemma {:induction false} VisitsKeepThePath(p: Protocol, s: State, id: Hash, visits: seq<Visit>)
    requires p.Valid() && Inv(s) && id in s.rooms && s.rooms[id].attack.Some?
    ensures var t := Visited(p, s, id, visits);
            Inv(t) && id in t.rooms && t.rooms[id].attack.Some? && t.rooms[id].trajectory == s.rooms[id].trajectory
    decreases |visits|
  {
    hide Inv, SettleLobby;
    if visits != [] {
      var before, last := visits[..|visits| - 1], visits[|visits| - 1];
      VisitsKeepThePath(p, s, id, before);
      AtKeeps(Visited(p, s, id, before), last.block);
      PathStays(p, At(Visited(p, s, id, before), last.block), id, last.nowMs);
    }
  }

  lemma AdvancedAgain(p: Protocol, s: State, id: Hash, nowMs: int)
    requires p.Valid() && Solvent(s) && DrawsOk(s) && AtRest(s) && id in s.rooms && s.rooms[id].status == Active
    ensures var t := AdvanceAttack(p, s, id); SettleLobby(p, t, id, nowMs) == t
  {
    hide Solvent, DrawsOk, JackpotOk, AdvanceAttack, SettleLobby, AdvancedForfeit, ConcludedRoom, Evolves, PoolTerm,
         Orphaned;
    var t := AdvanceAttack(p, s, id);
    AdvanceIs(p, s, id);
    if Lands(s.rooms[id], s.block) {
      ConcludedEnds(p, LaunchedRoom(s.rooms[id], s.block), s.block);
      FinishedSettles(p, t, id, nowMs);
    } else {
      AdvancedTwice(p, s.rooms[id], s.block, s.block);
      AdvanceKeeps(p, s, id);
      OnlyRoomKeepsDraws(s, t, id);
      ActiveSettles(p, t, id, nowMs);
      AdvanceIs(p, t, id);
      assert t.rooms[id := t.rooms[id]] == t.rooms;
    }
  }

  /** Settling a room twice at one block, at one time of day, is settling it once: nothing moves the second time. */
  lemma SettlingAgainChangesNothing(p: Protocol, s: State, id: Hash, nowMs: int)
    requires p.Valid() && Inv(s)
    ensures SettleLobby(p, SettleLobby(p, s, id, nowMs), id, nowMs) == SettleLobby(p, s, id, nowMs)
  {
    hide Inv, AdvanceAttack, SettleLobby, Activate;
    if id in s.rooms && s.rooms[id].status == Active {
      InvParts(s);
      ActiveSettles(p, s, id, nowMs);
      AdvancedAgain(p, s, id, nowMs);
    } else if id in s.rooms && s.rooms[id].status == Open && DeadlinePassed(s.rooms[id].config, s.block, nowMs) {
      if s.rooms[id].participantCount >= s.rooms[id].config.minPlayers {
        StartedIs(p, s, id, nowMs);
        AdvancedAgain(p, Activate(p, Put(s, id, s.rooms[id].(status := Ready)), id), id, nowMs);
      } else {
        UnfilledIs(p, s, id, nowMs);
        FinishedSettles(p, SettleLobby(p, s, id, nowMs), id, nowMs);
      }
    } else {
      InvParts(s);
      Idle(p, s, id, nowMs);
    }
  }

  lemma InvParts(s: State)
    requires Inv(s)
    ensures Solvent(s) && DrawsOk(s) && AtRest(s)
  {
  }

  lemma Idle(p: Protocol, s: State, id: Hash, nowMs: int)
    requires p.Valid()
    requires id in s.rooms ==> s.rooms[id].status in {Resolved, Cancelled}
                               || (s.rooms[id].status == Open && !DeadlinePassed(s.rooms[id].config, s.block, nowMs))
    ensures SettleLobby(p, s, id, nowMs) == s
  {
  }

  // ---------------------------------------------------------------- up to date

  /** A room as settlement leaves it at this block and time. */
  predicate UpToDate(p: Protocol, s: State, id: Hash, nowMs: int)
    requires p.limits.epochBlocks > 0
  {
    id in s.rooms && SettleLobby(p, s, id, nowMs) == s
  }

  /** Every settled state is up to date with itself. */
  lemma SettledIsUpToDate(p: Protocol, s: State, id: Hash, nowMs: int)
    requires p.Valid() && Inv(s) && id in s.rooms
    ensures var t := SettleLobby(p, s, id, nowMs); Inv(t) && UpToDate(p, t, id, nowMs)
  {
    hide Inv, SettleLobby, OnlyRoom;
    SettleKeeps(p, s, id, nowMs);
    SettlesKnown(p, s, id, nowMs);
    SettlingAgainChangesNothing(p, s, id, nowMs);
  }

  /** Up to date and open means applications really are open; the window's end is noticed at once. */
  lemma OpenMeansOpen(p: Protocol, s: State, id: Hash, nowMs: int)
    requires p.Valid() && Inv(s) && UpToDate(p, s, id, nowMs) && s.rooms[id].status == Open
    ensures !DeadlinePassed(s.rooms[id].config, s.block, nowMs)
  {
    hide Inv, SettleLobby, Activate, AdvanceAttack;
    if DeadlinePassed(s.rooms[id].config, s.block, nowMs) {
      if s.rooms[id].participantCount >= s.rooms[id].config.minPlayers {
        StartedIs(p, s, id, nowMs);
        StartedIsNotOpen(p, s, id);
      } else {
        UnfilledIs(p, s, id, nowMs);
      }
    }
  }

  lemma StartedIsNotOpen(p: Protocol, s: State, id: Hash)
    requires p.Valid() && id in s.rooms
    requires var t := Activate(p, Put(s, id, s.rooms[id].(status := Ready)), id);
             Solvent(t) && DrawsOk(t) && AtRest(t) && t.rooms[id].status == Active
    ensures var t := Activate(p, Put(s, id, s.rooms[id].(status := Ready)), id); AdvanceAttack(p, t, id).rooms[id].status != Open
  {
    hide Solvent, DrawsOk, AtRest, Activate, AdvanceAttack, VerdictOf, Forfeited;
    var t := Activate(p, Put(s, id, s.rooms[id].(status := Ready)), id);
    AdvanceIs(p, t, id);
  }
}
