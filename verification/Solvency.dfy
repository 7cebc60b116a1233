/** Every transition keeps the books balanced; so does every run. */
module Solvency {
  import opened Sums
  import opened Options
  import opened World
  import opened Interception
  import opened GlobalDefense
  import opened EmulatorState
  import opened GameContract
  import opened Accounting
  import opened RoomMoves
  import opened RoomHistory
  import opened Jackpot

  /** Each draw epoch names one protocol-owned room, each protocol-owned room is its epoch's draw, and holds nothing until it starts. */
  ghost predicate DrawsOk(s: State) {
    && (forall e :: e in s.draws ==>
          s.draws[e] in s.rooms && s.rooms[s.draws[e]].ProtocolOwned() && s.rooms[s.draws[e]].currentEpochId == Some(e))
    && (forall id :: id in s.rooms && s.rooms[id].ProtocolOwned() ==>
          && (s.rooms[id].attack.None? ==> s.rooms[id].ledger.startPrizePool == 0)
          && s.rooms[id].currentEpochId.Some? && s.rooms[id].currentEpochId.value in s.draws
          && s.draws[s.rooms[id].currentEpochId.value] == id)
  }

  ghost function PoolTerms(rooms: map<Hash, Room>): map<Hash, int> {
    map id | id in rooms :: PoolTerm(rooms[id])
  }

  /** The pool is what the rooms brought to it, less what draws hold of it and what was won there. */
  ghost predicate JackpotOk(s: State) { s.pool == Sum(PoolTerms(s.rooms)) }

  /** The invariant of every reachable state. */
  ghost predicate Inv(s: State) { Solvent(s) && AtRest(s) && DrawsOk(s) && JackpotOk(s) }

  lemma PutTerm(rooms: map<Hash, Room>, id: Hash, r: Room)
    ensures Sum(PoolTerms(rooms[id := r]))
            == Sum(PoolTerms(rooms)) - (if id in rooms then PoolTerm(rooms[id]) else 0) + PoolTerm(r)
  {
    hide Sum, PoolTerm;
    assert PoolTerms(rooms[id := r]) == PoolTerms(rooms)[id := PoolTerm(r)];
    SumUpdate(PoolTerms(rooms), id, PoolTerm(r));
  }

  lemma TouchedKeepsJackpot(s: State, t: State, id: Hash)
    requires JackpotOk(s) && Touched(s, t, id)
    ensures JackpotOk(t)
  {
    hide Sum, PoolTerm, Evolves;
    PutTerm(s.rooms, id, t.rooms[id]);
  }

  /** Only room `id` changed, it evolved, and the pool moved by exactly what the room contributes to it. */
  ghost predicate Touched(s: State, t: State, id: Hash) {
    && id in s.rooms && id in t.rooms && t.rooms == s.rooms[id := t.rooms[id]]
    && t.draws == s.draws && t.txCounter == s.txCounter && t.block == s.block
    && Evolves(s.rooms[id], t.rooms[id]) && t.pool - s.pool == PoolTerm(t.rooms[id]) - PoolTerm(s.rooms[id])
  }

  /** Only room `id` changed, it evolved, and nothing was orphaned in it. */
  ghost predicate OnlyRoom(s: State, t: State, id: Hash) {
    Touched(s, t, id) && Orphaned(t.rooms[id]) == Orphaned(s.rooms[id])
  }

  lemma OnlyRoomKeepsDraws(s: State, t: State, id: Hash)
    requires DrawsOk(s) && Touched(s, t, id)
    ensures DrawsOk(t)
  {
    hide Orphaned, KeepsEnding, PoolTerm;
  }

  lemma OnlyRoomChains(s: State, t: State, u: State, id: Hash)
    requires OnlyRoom(s, t, id) && OnlyRoom(t, u, id)
    ensures OnlyRoom(s, u, id)
  {
    hide Orphaned, Evolves, PoolTerm;
    EvolvesChains(s.rooms[id], t.rooms[id], u.rooms[id]);
  }

  lemma Unchanged(s: State, id: Hash)
    requires id in s.rooms
    ensures OnlyRoom(s, s, id)
  {
    hide Orphaned;
  }

  /** A change of one room that moves no money. */
  lemma PutSame(s: State, id: Hash, r: Room)
    requires Solvent(s) && id in s.rooms && RoomOk(r) && Backing(r) == Backing(s.rooms[id])
    ensures Solvent(Put(s, id, r))
  {
    hide Sum, Backing, RoomOk;
    ReplaceRoom(s, Put(s, id, r), id, r);
  }

  /** A change of one room paid for out of its backing. */
  lemma PutAndPay(s: State, id: Hash, r: Room, to: Address, amount: int)
    requires Solvent(s) && id in s.rooms && RoomOk(r) && to != PROTOCOL_ESCROW_ADDRESS
    requires 0 <= amount && Backing(r) == Backing(s.rooms[id]) - amount
    ensures var t := PayOut(Put(s, id, r), to, amount);
            && Solvent(t) && t.rooms == s.rooms[id := r] && t.pool == s.pool
            && t == s.(rooms := t.rooms, accounts := t.accounts)
            && BalanceOf(t.accounts, to) == BalanceOf(s.accounts, to) + amount
            && EscrowBalance(t) == EscrowBalance(s) - amount
            && (forall a :: a != to && a != PROTOCOL_ESCROW_ADDRESS ==> BalanceOf(t.accounts, a) == BalanceOf(s.accounts, a))
  {
    hide Sum, Backing, RoomOk, PayOut;
    EscrowCovers(s, id);
    BackingNonNegative(r);
    var u := Put(s, id, r);
    PayOutMoves(u, to, amount);
    ReplaceRoom(s, PayOut(u, to, amount), id, r);
  }

  lemma BackingNonNegative(r: Room)
    requires RoomOk(r)
    ensures Backing(r) >= 0
  {
    hide Sum, RoomOk;
    BackingCovers(r);
  }

  /** A change of one room that sends money to the draw pool, or takes it from there. */
  lemma PutAndPool(s: State, id: Hash, r: Room, toPool: int)
    requires Solvent(s) && id in s.rooms && RoomOk(r)
    requires Backing(r) == Backing(s.rooms[id]) - toPool && s.pool + toPool >= 0
    ensures Solvent(Put(s, id, r).(pool := s.pool + toPool))
  {
    hide Sum, Backing, RoomOk;
    ReplaceRoom(s, Put(s, id, r).(pool := s.pool + toPool), id, r);
  }

  lemma PoolIsKnown(s: State)
    requires Solvent(s)
    ensures s.pool >= 0
  {
    hide Sum, RoomOk;
  }

  /** Money in, against one room's backing. */
  lemma PutAndEscrow(s: State, id: Hash, r: Room, from: Address, amount: int)
    requires Solvent(s) && 0 < id <= s.txCounter && RoomOk(r) && from != PROTOCOL_ESCROW_ADDRESS && amount >= 0
    requires Backing(r) == (if id in s.rooms then Backing(s.rooms[id]) else 0) + amount
    requires Escrow(s, from, amount).Some?
    ensures var t := Put(Escrow(s, from, amount).value, id, r);
            && Solvent(t) && t.rooms == s.rooms[id := r] && t == s.(rooms := t.rooms, accounts := t.accounts)
            && BalanceOf(t.accounts, from) == BalanceOf(s.accounts, from) - amount
  {
    hide Sum, Backing, RoomOk, Escrow;
    EscrowMoves(s, from, amount);
    ReplaceRoom(s, Put(Escrow(s, from, amount).value, id, r), id, r);
  }

  // --------------------------------------------------------------- settlement

  lemma RefundSeatKeeps(s: State, id: Hash, a: Address)
    requires Solvent(s) && id in s.rooms && s.rooms[id].status == Cancelled
    ensures var t := RefundSeat(s, id, a);
            Solvent(t) && OnlyRoom(s, t, id) && t.rooms[id].status == Cancelled && t.pool == s.pool
            && SeatsPaid(s, t, id)
  {
    hide Sum, Backing, Orphaned, PayOut, RoomOk, PoolTerm, Evolves;
    var r := s.rooms[id];
    Unchanged(s, id);
    if a in r.seats && !r.seats[a].refunded && r.seats[a].paidIn > 0 {
      NotTheProtocol(r, a);
      RefundedBalances(r, a);
      RefundedTerm(r, a);
      RefundedEvolves(r, a);
      PutAndPay(s, id, Refunded(r, a), a, r.seats[a].paidIn);
    }
  }

  lemma NotTheProtocol(r: Room, a: Address)
    requires RoomOk(r) && a in r.seats
    ensures a != PROTOCOL_ESCROW_ADDRESS && a in r.participantAddresses
  {
    hide Sum, StageOk;
    assert SeatOk(r, a);
  }

  /** Refund bookkeeping of one room: seats keep what they paid, refunds are never taken back. */
  ghost predicate SeatsPaid(s: State, t: State, id: Hash) {
    && id in s.rooms && id in t.rooms
    && t.rooms[id].seats.Keys == s.rooms[id].seats.Keys
    && t.rooms[id].participantAddresses == s.rooms[id].participantAddresses
    && t.rooms[id].ending == s.rooms[id].ending && t.rooms[id].ledger == s.rooms[id].ledger
    && forall a :: a in s.rooms[id].seats ==>
         t.rooms[id].seats[a].paidIn == s.rooms[id].seats[a].paidIn
         && (s.rooms[id].seats[a].refunded ==> t.rooms[id].seats[a].refunded)
  }

  lemma KnownRoom(s: State, t: State, id: Hash)
    requires OnlyRoom(s, t, id)
    ensures id in s.rooms && id in t.rooms
  {
    hide Orphaned, Evolves, PoolTerm;
  }

  lemma {:induction false} RefundSeatsKeeps(s: State, id: Hash, addresses: seq<Address>)
    requires Solvent(s) && id in s.rooms && s.rooms[id].status == Cancelled
    ensures var t := RefundSeats(s, id, addresses);
            && Solvent(t) && OnlyRoom(s, t, id) && t.rooms[id].status == Cancelled && t.pool == s.pool
            && SeatsPaid(s, t, id)
            && (forall a :: a in addresses && a in t.rooms[id].seats && t.rooms[id].seats[a].paidIn > 0 ==>
                  t.rooms[id].seats[a].refunded)
    decreases |addresses|
  {
    hide Sum, Solvent, RefundSeat, OnlyRoom;
    if addresses == [] {
      Unchanged(s, id);
    } else {
      var u := RefundSeat(s, id, addresses[0]);
      RefundSeatKeeps(s, id, addresses[0]);
      KnownRoom(s, u, id);
      RefundSeatsKeeps(u, id, addresses[1..]);
      OnlyRoomChains(s, u, RefundSeats(s, id, addresses), id);
      if addresses[0] in s.rooms[id].seats && s.rooms[id].seats[addresses[0]].paidIn > 0 {
        FirstRefunded(s, id, addresses[0]);
      }
      assert addresses == [addresses[0]] + addresses[1..];
    }
  }

  lemma FirstRefunded(s: State, id: Hash, a: Address)
    requires id in s.rooms && a in s.rooms[id].seats && s.rooms[id].seats[a].paidIn > 0
    ensures RefundSeat(s, id, a).rooms[id].seats[a].refunded
  {
  }

  lemma ReturnBountyKeeps(s: State, id: Hash)
    requires Solvent(s) && id in s.rooms && s.rooms[id].status == Cancelled
    ensures var t := ReturnBounty(s, id);
            && Solvent(t) && OnlyRoom(s, t, id) && t.rooms[id] == Settled(s.rooms[id])
            && t.pool == s.pool + if s.rooms[id].ProtocolOwned() then CreatorDue(s.rooms[id]) else 0
  {
    hide Sum, Backing, Orphaned, PayOut, RoomOk, CreatorDue, Solvent, PoolTerm, Evolves;
    var r := s.rooms[id];
    SolventRoom(s, id);
    PoolIsKnown(s);
    CancelledDue(r);
    Unchanged(s, id);
    if !r.ledger.creatorSettled {
      SettledBalances(r);
      SettledTerm(r);
      SettledEvolves(r);
      if r.ledger.startPrizePool <= 0 {
        PutSame(s, id, Settled(r));
      } else if r.ProtocolOwned() {
        PutAndPool(s, id, Settled(r), r.ledger.startPrizePool);
      } else {
        PutAndPay(s, id, Settled(r), r.creator, r.ledger.startPrizePool);
      }
    }
  }

  lemma CancelledDue(r: Room)
    requires RoomOk(r) && r.status == Cancelled
    ensures r.ending == Unplayed && r.ledger.startPrizePool >= 0
    ensures CreatorDue(r) == if r.ledger.creatorSettled then 0 else r.ledger.startPrizePool
    ensures r.ledger.creatorSettled ==> Settled(r) == r
  {
    hide Sum;
  }

  lemma PayoutUnplayedKeeps(s: State, id: Hash)
    requires Solvent(s) && id in s.rooms && s.rooms[id].status == Cancelled
    ensures var t := PayoutUnplayed(s, id);
            Solvent(t) && OnlyRoom(s, t, id) && t.rooms[id].status == Cancelled
  {
    hide Sum, Solvent, RefundSeats, ReturnBounty;
    RefundSeatsKeeps(s, id, s.rooms[id].participantAddresses);
    ReturnBountyKeeps(RefundSeats(s, id, s.rooms[id].participantAddresses), id);
  }

  lemma CloseKeeps(s: State, id: Hash, nowMs: int)
    requires Solvent(s) && id in s.rooms
    ensures var t := CloseApplications(s, id, nowMs);
            && Solvent(t) && OnlyRoom(s, t, id)
            && (s.rooms[id].status != Open ==> t == s)
            && (t.rooms[id].status in {Open, Ready, Cancelled} || t == s)
  {
    hide Sum, Backing, Orphaned, RoomOk, PayoutUnplayed, Solvent, Evolves, PoolTerm;
    var r := s.rooms[id];
    SolventRoom(s, id);
    Unchanged(s, id);
    if r.status == Open && DeadlinePassed(r.config, s.block, nowMs) {
      RunningIsOpenEnded(r);
      if r.participantCount >= r.config.minPlayers {
        ReadyBalances(r);
        PutSame(s, id, r.(status := Ready));
        RunningEvolves(r, r.(status := Ready));
        RunningTerm(r, r.(status := Ready));
      } else {
        var c := r.(status := Cancelled, ending := Unplayed);
        UnfilledBalances(r);
        PutSame(s, id, c);
        RunningEvolves(r, c);
        UnfilledTerm(r);
        PayoutUnplayedKeeps(Put(s, id, c), id);
        OnlyRoomChains(s, Put(s, id, c), PayoutUnplayed(Put(s, id, c), id), id);
      }
    }
  }

  lemma ActivateKeeps(p: Protocol, s: State, id: Hash)
    requires p.Valid() && Solvent(s) && id in s.rooms && s.rooms[id].status == Ready
    ensures var t := Activate(p, s, id);
            Solvent(t) && OnlyRoom(s, t, id) && t.rooms[id].status == Active && t.pool == s.pool - Pooled(s, s.rooms[id])
  {
    hide Sum, Backing, Orphaned, RoomOk, ActivatedRoom, Solvent, Evolves, PoolTerm;
    var r := s.rooms[id];
    var pooled := Pooled(s, r);
    SolventRoom(s, id);
    PoolIsKnown(s);
    ActivatedBalances(p, r, id, s.block, pooled);
    PutAndPool(s, id, ActivatedRoom(p, r, id, s.block, pooled), -pooled);
    ActivatedEvolves(p, r, id, s.block, pooled);
    ActivatedTerm(p, r, id, s.block, pooled);
  }

  lemma ActivatedEvolves(p: Protocol, r: Room, id: Hash, block: int, pooled: int)
    requires p.Valid() && RoomOk(r) && r.status == Ready && (!r.ProtocolOwned() ==> pooled == 0)
    ensures Evolves(r, ActivatedRoom(p, r, id, block, pooled))
  {
    hide RoomOk, Evolves;
    RunningIsOpenEnded(r);
    RunningEvolves(r, ActivatedRoom(p, r, id, block, pooled));
  }

  /** With nothing at READY, folding the pool into a minted draw never moves money. */
  lemma TopUpIsIdle(p: Protocol, s: State)
    requires p.Valid() && AtRest(s) && DrawsOk(s)
    ensures MaybeTopUpGlobalDefense(p, s) == s
  {
  }

  lemma ConcludeKeeps(p: Protocol, s: State, id: Hash)
    requires p.Valid() && Solvent(s) && id in s.rooms && s.rooms[id].status == Active && Judgeable(s.rooms[id])
    ensures var t := Conclude(p, s, id);
            && Solvent(t) && OnlyRoom(s, t, id) && t.rooms[id].status in {Resolved, Cancelled}
            && t.pool == s.pool + Forfeited(p, s.rooms[id])
  {
    hide Sum, Backing, Orphaned, RoomOk, ConcludedRoom, Forfeited, Solvent, Evolves, PoolTerm;
    var r := s.rooms[id];
    SolventRoom(s, id);
    PoolIsKnown(s);
    ConcludedBalances(p, r, s.block);
    PutAndPool(s, id, ConcludedRoom(p, r, s.block), Forfeited(p, r));
    ConcludedEvolves(p, r, s.block);
    ConcludedTerm(p, r, s.block);
  }

  lemma ConcludedEvolves(p: Protocol, r: Room, block: int)
    requires RoomOk(r) && r.status == Active && Judgeable(r)
    ensures Evolves(r, ConcludedRoom(p, r, block))
  {
    hide VerdictOf, RoomOk, Evolves;
    RunningIsOpenEnded(r);
    RunningEvolves(r, ConcludedRoom(p, r, block));
  }

  lemma ActiveIsJudgeable(r: Room)
    requires RoomOk(r) && r.status == Active
    ensures Judgeable(r) && r.attack.value.status != AttackResolved
  {
    hide Sum, BooksOk, AttemptsOk;
  }

  /** The room once the launch block has been noticed. */
  function LaunchedState(s: State, id: Hash): State
    requires id in s.rooms && s.rooms[id].attack.Some?
  {
    var r := s.rooms[id];
    if r.attack.value.status == AttackPending && s.block >= r.attack.value.launchBlock
    then Put(s, id, r.(attack := Some(r.attack.value.(status := AttackLaunched)))) else s
  }

  lemma LaunchedStateKeeps(s: State, id: Hash)
    requires Solvent(s) && id in s.rooms && s.rooms[id].status == Active
    ensures Judgeable(s.rooms[id]) && s.rooms[id].attack.value.status != AttackResolved
    ensures var t := LaunchedState(s, id);
            && Solvent(t) && OnlyRoom(s, t, id) && t.rooms[id].status == Active && Judgeable(t.rooms[id])
            && t.rooms[id].attack.value.status != AttackResolved && t.pool == s.pool
  {
    hide Sum, Backing, Orphaned, RoomOk, Solvent;
    SolventRoom(s, id);
    ActiveIsJudgeable(s.rooms[id]);
    LaunchKeeps(s, id);
  }

  /** Resolution never finds a READY draw to top up, so it is just the conclusion. */
  lemma ResolveIsConclude(p: Protocol, s: State, id: Hash)
    requires p.Valid() && Solvent(s) && DrawsOk(s) && AtRest(s) && id in s.rooms && s.rooms[id].status == Active
    requires Judgeable(s.rooms[id])
    ensures var t := ResolveRoom(p, s, id);
            && t == Conclude(p, s, id) && Solvent(t) && OnlyRoom(s, t, id)
            && t.rooms[id].status in {Resolved, Cancelled} && t.pool == s.pool + Forfeited(p, s.rooms[id])
  {
    hide Sum, Solvent, Conclude, Forfeited, DrawsOk, MaybeTopUpGlobalDefense;
    var t := Conclude(p, s, id);
    ConcludeKeeps(p, s, id);
    OnlyRoomKeepsDraws(s, t, id);
    TopUpIsIdle(p, t);
  }

  lemma AdvanceKeeps(p: Protocol, s: State, id: Hash)
    requires p.Valid() && Solvent(s) && DrawsOk(s) && AtRest(s) && id in s.rooms && s.rooms[id].status == Active
    ensures var t := AdvanceAttack(p, s, id);
            && Solvent(t) && OnlyRoom(s, t, id) && t.rooms[id].status != Ready
  {
    hide Sum, Solvent, ResolveRoom, Forfeited, DrawsOk, Evolves, PoolTerm, Orphaned;
    LaunchedStateKeeps(s, id);
    var launched := LaunchedState(s, id);
    OnlyRoomKeepsDraws(s, launched, id);
    if launched.rooms[id].attack.value.status == AttackLaunched && s.block >= s.rooms[id].attack.value.ImpactBlock() {
      ResolveIsConclude(p, launched, id);
      OnlyRoomChains(s, launched, ResolveRoom(p, launched, id), id);
    }
  }

  lemma SolventRoom(s: State, id: Hash)
    requires Solvent(s) && id in s.rooms
    ensures RoomOk(s.rooms[id]) && 0 < id <= s.txCounter
  {
    hide Sum, RoomOk;
  }

  lemma LaunchKeeps(s: State, id: Hash)
    requires Solvent(s) && id in s.rooms && s.rooms[id].status == Active
    ensures s.rooms[id].attack.Some?
    ensures var t := Put(s, id, s.rooms[id].(attack := Some(s.rooms[id].attack.value.(status := AttackLaunched))));
            Solvent(t) && OnlyRoom(s, t, id) && t.rooms[id].status == Active
  {
    hide Sum, Backing, Orphaned, RoomOk;
    ActiveIsJudgeable(s.rooms[id]);
    LaunchedBalances(s.rooms[id]);
    LaunchedIsRunning(s.rooms[id]);
    PutSame(s, id, s.rooms[id].(attack := Some(s.rooms[id].attack.value.(status := AttackLaunched))));
  }

  lemma LaunchedIsRunning(r: Room)
    requires RoomOk(r) && r.status == Active && r.attack.Some?
    ensures var t := r.(attack := Some(r.attack.value.(status := AttackLaunched))); Evolves(r, t) && PoolTerm(t) == PoolTerm(r)
  {
    hide RoomOk, Evolves, PoolTerm;
    var t := r.(attack := Some(r.attack.value.(status := AttackLaunched)));
    RunningIsOpenEnded(r);
    ActiveIsJudgeable(r);
    RunningEvolves(r, t);
    RunningTerm(r, t);
  }

  /** Settling a room, whatever it finds, keeps the invariant and touches no other room. */
  lemma SettleKeeps(p: Protocol, s: State, id: Hash, nowMs: int)
    requires p.Valid() && Inv(s)
    ensures var t := SettleLobby(p, s, id, nowMs);
            Inv(t) && t.txCounter == s.txCounter && t.block == s.block && (if id in s.rooms then OnlyRoom(s, t, id) else t == s)
  {
    hide Sum, Solvent, CloseApplications, Activate, AdvanceAttack, JackpotOk, Evolves, PoolTerm, Orphaned;
    if id in s.rooms {
      var closed := CloseApplications(s, id, nowMs);
      CloseKeeps(s, id, nowMs);
      OnlyRoomKeepsDraws(s, closed, id);
      var started := if closed.rooms[id].status == Ready then Activate(p, closed, id) else closed;
      if closed.rooms[id].status == Ready {
        ActivateKeeps(p, closed, id);
        OnlyRoomChains(s, closed, started, id);
        OnlyRoomKeepsDraws(closed, started, id);
      }
      assert AtRest(started);
      if started.rooms[id].status == Active {
        AdvanceKeeps(p, started, id);
        OnlyRoomChains(s, started, AdvanceAttack(p, started, id), id);
        OnlyRoomKeepsDraws(started, AdvanceAttack(p, started, id), id);
      }
      TouchedKeepsJackpot(s, SettleLobby(p, s, id, nowMs), id);
    }
  }

  // ------------------------------------------------------------ the lifecycle

  /** The published table of status changes. */
  predicate CanTransition(from: LobbyStatus, to: LobbyStatus) {
    match from
    case Open => to in {Ready, Cancelled}
    case Ready => to == Active
    case Active => to == Resolved
    case Resolved => false
    case Cancelled => false
  }

  /**
   * Closing applications and starting only ever take steps of the table; the verdict takes one the table lacks, ACTIVE to
   * CANCELLED, exactly when nobody acted in the round.
   */
  lemma StepsAgainstTheTable(p: Protocol, s: State, id: Hash, nowMs: int)
    requires p.Valid() && Solvent(s) && id in s.rooms
    ensures var t := CloseApplications(s, id, nowMs);
            t.rooms[id].status == s.rooms[id].status || CanTransition(s.rooms[id].status, t.rooms[id].status)
    ensures s.rooms[id].status == Ready ==> CanTransition(Ready, Activate(p, s, id).rooms[id].status)
    ensures s.rooms[id].status == Active ==>
              Judgeable(s.rooms[id])
              && (CanTransition(Active, Conclude(p, s, id).rooms[id].status) <==> WasActedIn(s.rooms[id]))
  {
    hide Solvent, PayoutUnplayed, Evolves, PoolTerm, Orphaned, ActivatedRoom, ConcludedRoom, WasActedIn, RoomOk;
    var r := s.rooms[id];
    if r.status == Active {
      SolventRoom(s, id);
      ActiveIsJudgeable(r);
      VerdictLeavesTheTableIff(p, r, s.block);
    }
    if r.status == Open && DeadlinePassed(r.config, s.block, nowMs) && r.participantCount < r.config.minPlayers {
      var c := Put(s, id, r.(status := Cancelled, ending := Unplayed));
      CloseKeeps(s, id, nowMs);
      UnfilledIsSound(s, id);
      PayoutUnplayedKeeps(c, id);
    }
    if r.status == Ready { ActivateKeeps(p, s, id); }
  }

  lemma UnfilledIsSound(s: State, id: Hash)
    requires Solvent(s) && id in s.rooms && s.rooms[id].status == Open
    ensures Solvent(Put(s, id, s.rooms[id].(status := Cancelled, ending := Unplayed)))
  {
    hide Sum, Backing, Orphaned, RoomOk;
    UnfilledBalances(s.rooms[id]);
    PutSame(s, id, s.rooms[id].(status := Cancelled, ending := Unplayed));
  }

  /** The verdict leaves the table - ACTIVE to CANCELLED - exactly when nobody acted in the round. */
  lemma VerdictLeavesTheTableIff(p: Protocol, r: Room, block: int)
    requires Judgeable(r) && r.status == Active
    ensures !CanTransition(Active, ConcludedRoom(p, r, block).status) <==> !WasActedIn(r)
    ensures !WasActedIn(r) ==> ConcludedRoom(p, r, block).status == Cancelled && ConcludedRoom(p, r, block).ending == Unplayed
  {
    hide VerdictOf;
  }
}
