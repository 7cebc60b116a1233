/** Every write, every read and every block keeps the books balanced; so does every run. */
module Runs {
  import opened Sums
  import opened Options
  import opened Numbers
  import opened World
  import opened Interception
  import opened GlobalDefense
  import opened EmulatorState
  import opened GameContract
  import opened Accounting
  import opened RoomMoves
  import opened RoomHistory
  import opened Solvency
  import opened Jackpot

  // ------------------------------------------------------------------ writes

  /** A sound room that is not left at READY leaves the whole state sound. */
  lemma OneRoomKeeps(s: State, t: State, id: Hash)
    requires Inv(s) && Touched(s, t, id) && Solvent(t) && t.rooms[id].status != Ready
    ensures Inv(t)
  {
    hide Solvent, Evolves, PoolTerm, JackpotOk;
    OnlyRoomKeepsDraws(s, t, id);
    TouchedKeepsJackpot(s, t, id);
  }

  lemma NextHashKeeps(s: State)
    requires Inv(s)
    ensures Inv(NextHash(s))
  {
    hide Sum, RoomOk;
  }

  /** A room nobody had before: only its own backing is added. */
  lemma FreshRoomKeeps(s: State, t: State, id: Hash)
    requires Inv(s) && id !in s.rooms && id in t.rooms && t.rooms == s.rooms[id := t.rooms[id]] && Solvent(t)
    requires t.rooms[id].status == Open && t.draws == s.draws && !t.rooms[id].ProtocolOwned()
    requires t.pool == s.pool && PoolTerm(t.rooms[id]) == 0
    ensures Inv(t)
  {
    hide Solvent, Sum, PoolTerm;
    PutTerm(s.rooms, id, t.rooms[id]);
  }

  lemma FreshId(s: State)
    requires Inv(s)
    ensures s.txCounter + 1 !in s.rooms
  {
    hide Sum, RoomOk;
  }

  lemma CreateKeeps(p: Protocol, s: State, from: Address, config: LobbyConfig, value: int, nowMs: int, hash: Hash)
    requires p.Valid() && Inv(s) && from != PROTOCOL_ESCROW_ADDRESS && hash !in s.rooms && 0 < hash <= s.txCounter
    ensures var tx := ApplyCreateLobby(p, s, from, config, value, nowMs, hash);
            && Inv(tx.state)
            && (tx.Failed? ==> tx.state == s)
            && (tx.Confirmed? ==>
                  && tx.state.rooms == s.rooms[hash := MintedRoom(p, from, config, value)]
                  && Orphaned(tx.state.rooms[hash]) == 0 && tx.state.draws == s.draws
                  && tx.state.block == s.block && tx.state.txCounter == s.txCounter)
  {
    hide Sum, Backing, Orphaned, RoomOk, Solvent, MintedRoom, PoolTerm, JackpotOk;
    var tx := ApplyCreateLobby(p, s, from, config, value, nowMs, hash);
    if tx.Confirmed? {
      var r := MintedRoom(p, from, config, value);
      MintedBalances(p, from, config, value, nowMs);
      MintedTerms(p, from, config, value, nowMs);
      PutAndEscrow(s, hash, r, from, value);
      FreshRoomKeeps(s, tx.state, hash);
    }
  }

  lemma MintedTerms(p: Protocol, from: Address, config: LobbyConfig, value: int, nowMs: int)
    requires p.Valid() && IsLegalConfig(config, nowMs, p.limits) && value >= config.prizePool + config.protocolJoinFee
    requires from != PROTOCOL_ESCROW_ADDRESS
    ensures value >= 0 && MintedRoom(p, from, config, value).creator == from
    ensures PoolTerm(MintedRoom(p, from, config, value)) == 0
  {
  }

  /** A join orphans exactly what a replaced record had paid. */
  lemma JoinKeeps(s: State, from: Address, id: Hash, value: int, nowMs: int)
    requires Inv(s) && from != PROTOCOL_ESCROW_ADDRESS
    ensures var tx := ApplyJoinLobby(s, from, id, value, nowMs);
            && Inv(tx.state) && tx.state.draws == s.draws
            && (tx.Failed? ==> tx.state == s)
            && (tx.Confirmed? ==>
                  && Touched(s, tx.state, id) && tx.state.rooms[id] == Joined(s.rooms[id], from)
                  && tx.state.pool == s.pool
                  && Orphaned(tx.state.rooms[id])
                     == Orphaned(s.rooms[id]) + if from in s.rooms[id].seats then s.rooms[id].seats[from].paidIn else 0)
  {
    hide Sum, Backing, Orphaned, RoomOk, Solvent, Joined, JoinCost, Evolves, PoolTerm, JackpotOk;
    var tx := ApplyJoinLobby(s, from, id, value, nowMs);
    if tx.Confirmed? {
      var r := s.rooms[id];
      SolventRoom(s, id);
      JoinedBalances(r, from);
      JoinCostIsPaid(r);
      PutAndEscrow(s, id, Joined(r, from), from, JoinCost(r));
      JoinedEvolves(r, from);
      OneRoomKeeps(s, tx.state, id);
    }
  }

  lemma JoinCostIsPaid(r: Room)
    requires RoomOk(r)
    ensures JoinCost(r) >= 0 && r.config.probePrice >= 0
  {
    hide StageOk, Sum;
    FeesNonNegative(r);
  }

  lemma JoinedEvolves(r: Room, from: Address)
    requires RoomOk(r) && r.status == Open
    ensures Evolves(r, Joined(r, from)) && PoolTerm(Joined(r, from)) == PoolTerm(r)
  {
    hide RoomOk, Evolves, PoolTerm;
    RunningIsOpenEnded(r);
    RunningEvolves(r, Joined(r, from));
    RunningTerm(r, Joined(r, from));
  }

  lemma LeaveKeeps(p: Protocol, s0: State, from: Address, id: Hash, nowMs: int)
    requires p.Valid() && Inv(s0) && id in s0.rooms && from != PROTOCOL_ESCROW_ADDRESS
    ensures var t := ApplyLeaveLobby(p, s0, from, id, nowMs).state; Inv(t) && OnlyRoom(s0, t, id)
  {
    hide Sum, Backing, Orphaned, RoomOk, Solvent, Left, PayOut, Evolves, PoolTerm, JackpotOk, SettleLobby;
    SettleKeeps(p, s0, id, nowMs);
    var s := SettleLobby(p, s0, id, nowMs);
    var tx := ApplyLeaveLobby(p, s0, from, id, nowMs);
    if tx.Confirmed? {
      var r := s.rooms[id];
      SolventRoom(s, id);
      LeftBalances(r, from);
      SeatMoney(r, from);
      PutAndPay(s, id, Left(r, from), from, r.seats[from].paidIn);
      LeftEvolves(r, from);
      OnlyRoomChains(s0, s, tx.state, id);
      OneRoomKeeps(s, tx.state, id);
    }
  }

  lemma SeatMoney(r: Room, from: Address)
    requires RoomOk(r) && from in r.seats
    ensures r.seats[from].paidIn >= 0
  {
    hide StageOk, Sum;
    FeesNonNegative(r);
  }

  lemma LeftEvolves(r: Room, from: Address)
    requires RoomOk(r) && r.status == Open && from in r.seats
    ensures Evolves(r, Left(r, from)) && PoolTerm(Left(r, from)) == PoolTerm(r)
  {
    hide RoomOk, Evolves, PoolTerm;
    RunningIsOpenEnded(r);
    RunningEvolves(r, Left(r, from));
    RunningTerm(r, Left(r, from));
  }

  lemma BuyKeeps(p: Protocol, s0: State, from: Address, id: Hash, value: int, nowMs: int)
    requires p.Valid() && Inv(s0) && id in s0.rooms && from != PROTOCOL_ESCROW_ADDRESS
    ensures var t := ApplyBuyDrone(p, s0, from, id, value, nowMs).state; Inv(t) && OnlyRoom(s0, t, id)
  {
    hide Sum, Backing, Orphaned, RoomOk, Solvent, Bought, Evolves, PoolTerm, JackpotOk, SettleLobby;
    SettleKeeps(p, s0, id, nowMs);
    var s := SettleLobby(p, s0, id, nowMs);
    var tx := ApplyBuyDrone(p, s0, from, id, value, nowMs);
    if tx.Confirmed? {
      var r := s.rooms[id];
      SolventRoom(s, id);
      BoughtBalances(r, from);
      JoinCostIsPaid(r);
      PutAndEscrow(s, id, Bought(r, from), from, r.config.probePrice);
      BoughtEvolves(r, from);
      OnlyRoomChains(s0, s, tx.state, id);
      OneRoomKeeps(s, tx.state, id);
    }
  }

  lemma BoughtEvolves(r: Room, from: Address)
    requires RoomOk(r) && r.status in {Open, Ready, Active} && from in r.seats
    ensures Evolves(r, Bought(r, from)) && PoolTerm(Bought(r, from)) == PoolTerm(r)
  {
    hide RoomOk, Evolves, PoolTerm;
    RunningIsOpenEnded(r);
    RunningEvolves(r, Bought(r, from));
    RunningTerm(r, Bought(r, from));
  }

  /** An attack that is neither pending nor resolved belongs to an active room. */
  lemma LaunchedMeansActive(r: Room, attackId: int)
    requires RoomOk(r) && FindAttack(r, attackId).Some?
    requires r.attack.value.status != AttackResolved
    ensures r.status == Active
  {
    hide BooksOk, AttemptsOk;
  }

  lemma ProbeKeeps(s: State, id: Hash, from: Address, attackId: int, hash: Hash)
    requires Inv(s) && id in s.rooms && ProbeRefusal(s.rooms[id], from, attackId, s.block).None?
    ensures var t := Put(s, id, Probed(s.rooms[id], from, s.block, hash)); Inv(t) && OnlyRoom(s, t, id)
  {
    hide Sum, Backing, Orphaned, RoomOk, Solvent, Probed, Evolves, PoolTerm, JackpotOk;
    var r := s.rooms[id];
    SolventRoom(s, id);
    LaunchedMeansActive(r, attackId);
    ProbedBalances(r, from, s.block, hash);
    PutSame(s, id, Probed(r, from, s.block, hash));
    ProbedEvolves(r, from, s.block, hash);
    OneRoomKeeps(s, Put(s, id, Probed(r, from, s.block, hash)), id);
  }

  lemma ProbedEvolves(r: Room, from: Address, block: int, hash: Hash)
    requires RoomOk(r) && r.status == Active && from in r.seats
    ensures Evolves(r, Probed(r, from, block, hash)) && PoolTerm(Probed(r, from, block, hash)) == PoolTerm(r)
  {
    hide RoomOk, Evolves, PoolTerm;
    RunningIsOpenEnded(r);
    RunningEvolves(r, Probed(r, from, block, hash));
    RunningTerm(r, Probed(r, from, block, hash));
  }

  lemma DefendKeeps(p: Protocol, s: State, id: Hash, from: Address, attackId: int, point: DefensePoint, hash: Hash)
    requires Inv(s) && id in s.rooms && DefenseRefusal(p, s.rooms[id], from, attackId, point, s.block).None?
    ensures var t := Put(s, id, Defended(s.rooms[id], from, point, s.block, hash)); Inv(t) && OnlyRoom(s, t, id)
  {
    hide Sum, Backing, Orphaned, RoomOk, Solvent, Defended, Evolves, PoolTerm, JackpotOk;
    var r := s.rooms[id];
    SolventRoom(s, id);
    LaunchedMeansActive(r, attackId);
    DefendedBalances(r, from, point, s.block, hash);
    PutSame(s, id, Defended(r, from, point, s.block, hash));
    DefendedEvolves(r, from, point, s.block, hash);
    OneRoomKeeps(s, Put(s, id, Defended(r, from, point, s.block, hash)), id);
  }

  lemma DefendedEvolves(r: Room, from: Address, point: DefensePoint, block: int, hash: Hash)
    requires RoomOk(r) && r.status == Active && from in r.seats
    ensures Evolves(r, Defended(r, from, point, block, hash))
    ensures PoolTerm(Defended(r, from, point, block, hash)) == PoolTerm(r)
  {
    hide RoomOk, Evolves, PoolTerm;
    RunningIsOpenEnded(r);
    RunningEvolves(r, Defended(r, from, point, block, hash));
    RunningTerm(r, Defended(r, from, point, block, hash));
  }

  lemma PrivateActionKeeps(p: Protocol, s0: State, from: Address, id: Hash, envelope: SealedRequest, nowMs: int,
                           hash: Hash)
    requires p.Valid() && Inv(s0) && id in s0.rooms
    ensures var t := ApplyPrivateAction(p, s0, from, id, envelope, nowMs, hash).state; Inv(t) && OnlyRoom(s0, t, id)
  {
    hide Inv, OnlyRoom, Probed, Defended, SettleLobby, ProbeRefusal, DefenseRefusal;
    SettleKeeps(p, s0, id, nowMs);
    var s := SettleLobby(p, s0, id, nowMs);
    var t := ApplyPrivateAction(p, s0, from, id, envelope, nowMs, hash).state;
    if t != s {
      match envelope.request {
        case ReconProbe(attackId) => ProbeKeeps(s, id, from, attackId, hash);
        case DefenseSubmit(attackId, point) => DefendKeeps(p, s, id, from, attackId, point, hash);
      }
      OnlyRoomChains(s0, s, t, id);
    }
  }

  /** Only a finished room has a resolved attack. */
  lemma ResolvedMeansFinished(r: Room, attackId: int)
    requires RoomOk(r) && FindAttack(r, attackId).Some? && r.attack.value.status == AttackResolved
    ensures r.status in {Resolved, Cancelled} && r.outcome.Some? && r.trajectory.Some?
    ensures r.outcome.value.attackId == attackId
  {
    hide BooksOk, AttemptsOk;
  }

  lemma RevealKeeps(p: Protocol, s0: State, from: Address, id: Hash, attackId: int, nowMs: int)
    requires p.Valid() && Inv(s0) && id in s0.rooms
    ensures var t := ApplyRevealAttack(p, s0, from, id, attackId, nowMs).state; Inv(t) && OnlyRoom(s0, t, id)
  {
    hide Sum, Backing, Orphaned, RoomOk, Solvent, Evolves, PoolTerm, JackpotOk, SettleLobby;
    SettleKeeps(p, s0, id, nowMs);
    var s := SettleLobby(p, s0, id, nowMs);
    var tx := ApplyRevealAttack(p, s0, from, id, attackId, nowMs);
    if tx.Confirmed? {
      var r := s.rooms[id];
      SolventRoom(s, id);
      ResolvedMeansFinished(r, attackId);
      var revealed := LobbyReveal(attackId, r.trajectory.value, from, s.block);
      RevealedBalances(r, revealed);
      PutSame(s, id, r.(revealed := Some(revealed)));
      RevealedEvolves(r, revealed);
      RevealedTerm(r, revealed);
      OnlyRoomChains(s0, s, tx.state, id);
      OneRoomKeeps(s, tx.state, id);
    }
  }

  // ------------------------------------------------------------------ claims

  lemma WinnerIsOwed(r: Room, from: Address, attackId: int)
    requires RoomOk(r) && RewardRefusal(r, from, attackId).None?
    ensures r.status == Resolved && r.outcome.Some? && Won(r) && from in r.seats && from in r.outcome.value.Winners()
    ensures r.seats[from].payoutState == PayoutPending && r.outcome.value.rewardPerWinner > 0
    ensures SeatDue(r, r.seats[from]) == r.outcome.value.rewardPerWinner && from != PROTOCOL_ESCROW_ADDRESS
  {
    hide Sum, AttemptsOk;
    NotTheProtocol(r, from);
  }

  /** What a claim writes down, and what it takes out of the room's backing. */
  lemma ClaimedInFull(r: Room, from: Address, attackId: int)
    requires RoomOk(r) && RewardRefusal(r, from, attackId).None?
    ensures var t := Rewarded(r, from);
            && RoomOk(t) && t.status == Resolved && Evolves(r, t) && Orphaned(t) == Orphaned(r)
            && Backing(t) == Backing(r) - r.outcome.value.rewardPerWinner - ClaimedFee(r, from)
            && ClaimedFee(r, from) == (if from == r.creator then CreatorDue(r) else 0)
            && ClaimedFee(r, from) >= 0 && PoolTerm(t) == PoolTerm(r)
  {
    hide Sum, Backing, Orphaned, RoomOk, Claimed, Evolves, CreatorDue, Won, ClaimedFee, Settled, PoolTerm;
    WinnerIsOwed(r, from, attackId);
    ClaimedBalances(r, from);
    ClaimedEvolves(r, from);
    ClaimedTerm(r, from);
    ClaimedKeepsCreator(r, from);
    FeeIsCreatorsDue(r, from);
    var t := Claimed(r, from);
    if ClaimedFee(r, from) > 0 {
      EndedRoom(t);
      SettledBalances(t);
      SettledEvolves(t);
      SettledTerm(t);
      EvolvesChains(r, t, Settled(t));
    }
  }

  lemma ClaimedKeepsCreator(r: Room, from: Address)
    requires from in r.seats && r.outcome.Some?
    ensures Claimed(r, from).creator == r.creator
    ensures (from != PROTOCOL_ESCROW_ADDRESS && ClaimedFee(r, from) > 0 ==> !r.ProtocolOwned())
  {
  }

  lemma EndedRoom(r: Room)
    requires RoomOk(r) && r.status in {Resolved, Cancelled}
    ensures r.ending != NotEnded
  {
    hide BooksOk, AttemptsOk;
  }

  lemma FeeIsCreatorsDue(r: Room, from: Address)
    requires RoomOk(r) && r.status == Resolved
    ensures ClaimedFee(r, from) == (if from == r.creator then CreatorDue(r) else 0)
    ensures CreatorDue(r) >= 0
  {
    hide Sum, AttemptsOk;
    SeatDuesNonNegative(r);
  }

  lemma ClaimRewardKeeps(p: Protocol, s0: State, from: Address, id: Hash, attackId: int, nowMs: int)
    requires p.Valid() && Inv(s0) && id in s0.rooms
    ensures var t := ApplyClaimReward(p, s0, from, id, attackId, nowMs).state; Inv(t) && OnlyRoom(s0, t, id)
  {
    hide Sum, Backing, Orphaned, RoomOk, Solvent, Evolves, PoolTerm, JackpotOk, SettleLobby, Claimed, ClaimedFee,
         PayOut, RewardRefusal, CreatorDue;
    SettleKeeps(p, s0, id, nowMs);
    var s := SettleLobby(p, s0, id, nowMs);
    var r := s.rooms[id];
    var tx := ApplyClaimReward(p, s0, from, id, attackId, nowMs);
    if tx.Confirmed? {
      SolventRoom(s, id);
      WinnerIsOwed(r, from, attackId);
      ClaimedInFull(r, from, attackId);
      var fee := ClaimedFee(r, from);
      PutAndPay(s, id, Rewarded(r, from), from, r.outcome.value.rewardPerWinner + fee);
      OnlyRoomChains(s0, s, tx.state, id);
      OneRoomKeeps(s, tx.state, id);
    }
  }

  lemma RefundingIsCancelled(r: Room)
    requires RoomOk(r) && Refunding(r)
    ensures r.status == Cancelled
  {
    hide BooksOk, AttemptsOk;
  }

  /** What a refund writes down, and what it takes out of the room's backing. */
  lemma RefundedInFull(r: Room, from: Address)
    requires RoomOk(r) && Refunding(r) && from != PROTOCOL_ESCROW_ADDRESS
    ensures var t := PaidBack(r, from);
            && RoomOk(t) && t.status == Cancelled && Evolves(r, t) && Orphaned(t) == Orphaned(r)
            && PoolTerm(t) == PoolTerm(r)
            && Backing(t) == Backing(r) - SeatRefund(r, from) - BountyRefund(r, from)
    ensures SeatRefund(r, from) == (if from in r.seats then SeatDue(r, r.seats[from]) else 0)
    ensures BountyRefund(r, from) == (if from == r.creator then CreatorDue(r) else 0)
  {
    hide Sum, Backing, Orphaned, RoomOk, Evolves, CreatorDue, Settled, Refunded, PoolTerm;
    RefundingIsCancelled(r);
    RefundShapes(r, from);
    var back := if SeatRefund(r, from) > 0 then Refunded(r, from) else r;
    if SeatRefund(r, from) > 0 {
      RefundedBalances(r, from);
      RefundedEvolves(r, from);
      RefundedTerm(r, from);
      RefundedKeepsCreator(r, from);
    } else {
      SameEvolves(r);
    }
    assert RoomOk(back) && Evolves(r, back) && Backing(back) == Backing(r) - SeatRefund(r, from);
    if BountyRefund(r, from) > 0 {
      EndedRoom(back);
      SettledBalances(back);
      SettledEvolves(back);
      SettledTerm(back);
      EvolvesChains(r, back, Settled(back));
    }
  }

  lemma RefundedKeepsCreator(r: Room, a: Address)
    requires a in r.seats
    ensures Refunded(r, a).creator == r.creator
  {
  }

  lemma SameEvolves(r: Room)
    ensures Evolves(r, r)
  {
  }

  lemma RefundShapes(r: Room, from: Address)
    requires RoomOk(r) && Refunding(r) && r.status == Cancelled
    ensures SeatRefund(r, from) == (if from in r.seats then SeatDue(r, r.seats[from]) else 0)
    ensures BountyRefund(r, from) == (if from == r.creator then CreatorDue(r) else 0)
    ensures SeatRefund(r, from) >= 0 && BountyRefund(r, from) >= 0
  {
    hide Sum, StageOk;
    FeesNonNegative(r);
  }

  lemma ClaimRefundKeeps(p: Protocol, s0: State, from: Address, id: Hash, nowMs: int)
    requires p.Valid() && Inv(s0) && id in s0.rooms && from != PROTOCOL_ESCROW_ADDRESS
    ensures var t := ApplyClaimRefund(p, s0, from, id, nowMs).state; Inv(t) && OnlyRoom(s0, t, id)
  {
    hide Sum, Backing, Orphaned, RoomOk, Solvent, Evolves, PoolTerm, JackpotOk, SettleLobby, Refunded, SeatRefund,
         BountyRefund, PayOut, CreatorDue;
    SettleKeeps(p, s0, id, nowMs);
    var s := SettleLobby(p, s0, id, nowMs);
    var r := s.rooms[id];
    var tx := ApplyClaimRefund(p, s0, from, id, nowMs);
    if tx.Confirmed? {
      SolventRoom(s, id);
      RefundedInFull(r, from);
      PutAndPay(s, id, PaidBack(r, from), from, SeatRefund(r, from) + BountyRefund(r, from));
      OnlyRoomChains(s0, s, tx.state, id);
      OneRoomKeeps(s, tx.state, id);
    }
  }

  /** The amount the creator's settlement names is the creator's due. */
  lemma SettlementIsCreatorsDue(r: Room)
    requires RoomOk(r) && r.ending != NotEnded && !r.ledger.creatorSettled
    ensures CreatorDue(r) == if r.ending == Completed then CompletedCreatorDue(r) else r.ledger.startPrizePool
    ensures CreatorDue(r) >= 0 && r.status in {Resolved, Cancelled}
  {
    hide Sum, AttemptsOk;
    SeatDuesNonNegative(r);
  }

  lemma SettleCreatorKeeps(p: Protocol, s0: State, from: Address, id: Hash, nowMs: int)
    requires p.Valid() && Inv(s0) && id in s0.rooms
    ensures var t := ApplySettleCreator(p, s0, from, id, nowMs).state; Inv(t) && OnlyRoom(s0, t, id)
  {
    hide Sum, Backing, Orphaned, RoomOk, Solvent, Evolves, PoolTerm, JackpotOk, SettleLobby, PayOut, CreatorDue,
         CompletedCreatorDue;
    SettleKeeps(p, s0, id, nowMs);
    var s := SettleLobby(p, s0, id, nowMs);
    var r := s.rooms[id];
    var tx := ApplySettleCreator(p, s0, from, id, nowMs);
    if tx.state != s {
      SolventRoom(s, id);
      PoolIsKnown(s);
      SettlementIsCreatorsDue(r);
      SettledBalances(r);
      SettledEvolves(r);
      SettledTerm(r);
      if CreatorDue(r) == 0 {
        PutSame(s, id, Settled(r));
      } else if r.ProtocolOwned() {
        PutAndPool(s, id, Settled(r), CreatorDue(r));
      } else {
        PutAndPay(s, id, Settled(r), r.creator, CreatorDue(r));
      }
      OnlyRoomChains(s0, s, tx.state, id);
      OneRoomKeeps(s, tx.state, id);
    }
  }

  // ------------------------------------------------------------- whole steps

  /** Time passed: rooms and draws are never dropped, and every room evolved. */
  ghost predicate Continues(s: State, t: State) {
    && s.txCounter <= t.txCounter && s.block <= t.block
    && (forall id :: id in s.rooms ==> id in t.rooms && Evolves(s.rooms[id], t.rooms[id]))
    && (forall e :: e in s.draws ==> e in t.draws && t.draws[e] == s.draws[e])
  }

  /** No room orphaned anything; a new room starts with nothing orphaned. */
  ghost predicate NothingOrphaned(s: State, t: State) {
    forall id :: id in t.rooms ==> Orphaned(t.rooms[id]) == if id in s.rooms then Orphaned(s.rooms[id]) else 0
  }

  lemma StaysPut(s: State, t: State)
    requires t.rooms == s.rooms && t.draws == s.draws && t.txCounter >= s.txCounter && t.block >= s.block
    ensures Continues(s, t) && NothingOrphaned(s, t)
  {
    hide Orphaned, KeepsEnding;
    forall id | id in s.rooms
      ensures Evolves(s.rooms[id], t.rooms[id])
    {
      SameEvolves(s.rooms[id]);
    }
  }

  lemma ContinuesChains(s: State, t: State, u: State)
    requires Continues(s, t) && Continues(t, u)
    ensures Continues(s, u)
    ensures NothingOrphaned(s, t) && NothingOrphaned(t, u) ==> NothingOrphaned(s, u)
  {
    hide Orphaned, Evolves;
    forall id | id in s.rooms
      ensures Evolves(s.rooms[id], u.rooms[id])
    {
      EvolvesChains(s.rooms[id], t.rooms[id], u.rooms[id]);
    }
  }

  lemma OneRoomContinues(s: State, t: State, id: Hash)
    requires Touched(s, t, id)
    ensures Continues(s, t)
    ensures OnlyRoom(s, t, id) ==> NothingOrphaned(s, t)
  {
    hide Orphaned, Evolves;
    forall j | j in s.rooms
      ensures Evolves(s.rooms[j], t.rooms[j])
    {
      SameEvolves(s.rooms[j]);
    }
  }

  lemma NewRoomContinues(s: State, t: State, id: Hash)
    requires id !in s.rooms && id in t.rooms && t.rooms == s.rooms[id := t.rooms[id]] && Orphaned(t.rooms[id]) == 0
    requires s.txCounter <= t.txCounter && s.block <= t.block
    requires forall e :: e in s.draws ==> e in t.draws && t.draws[e] == s.draws[e]
    ensures Continues(s, t) && NothingOrphaned(s, t)
  {
    hide Orphaned, Evolves;
    forall j | j in s.rooms
      ensures Evolves(s.rooms[j], t.rooms[j])
    {
      SameEvolves(s.rooms[j]);
    }
  }

  lemma SettleContinues(p: Protocol, s: State, id: Hash, nowMs: int)
    requires p.Valid() && Inv(s)
    ensures var t := SettleLobby(p, s, id, nowMs); Inv(t) && Continues(s, t) && NothingOrphaned(s, t) && t.draws == s.draws
  {
    hide Inv, SettleLobby, Continues, NothingOrphaned, OnlyRoom;
    var t := SettleLobby(p, s, id, nowMs);
    SettleKeeps(p, s, id, nowMs);
    if id in s.rooms {
      assert Touched(s, t, id) by { OnlyIsTouched(s, t, id); }
      OneRoomContinues(s, t, id);
    } else {
      StaysPut(s, t);
    }
  }

  lemma OnlyIsTouched(s: State, t: State, id: Hash)
    requires OnlyRoom(s, t, id)
    ensures Touched(s, t, id) && t.draws == s.draws
  {
    hide Orphaned, Evolves;
  }

  /** Opening a draw mints the one protocol-owned room of its epoch. */
  lemma OpenDrawKeeps(p: Protocol, s: State, nowMs: int, hash: Hash)
    requires p.Valid() && Inv(s) && hash !in s.rooms && 0 < hash <= s.txCounter
    ensures var t := OpenGlobalDefense(p, s, nowMs, hash).state; Inv(t) && Continues(s, t) && NothingOrphaned(s, t)
  {
    hide Sum, Backing, Orphaned, RoomOk, Solvent, DrawRoom, UpcomingDraw, PoolTerm, JackpotOk, Continues,
         NothingOrphaned;
    var tx := OpenGlobalDefense(p, s, nowMs, hash);
    StaysPut(s, s);
    if tx.Confirmed? {
      var schedule := UpcomingDraw(p, s.block);
      var r := DrawRoom(p, schedule, s.block, nowMs);
      DrawBalances(p, schedule, s.block, nowMs);
      DrawNames(p, schedule, s.block, nowMs);
      AddUnbacked(s, tx.state, hash, r);
      NewRoomContinues(s, tx.state, hash);
    }
  }

  lemma DrawNames(p: Protocol, schedule: Schedule, block: int, nowMs: int)
    ensures var r := DrawRoom(p, schedule, block, nowMs); r.ProtocolOwned() && r.currentEpochId == Some(schedule.nextEpoch) && PoolTerm(r) == 0
    ensures DrawRoom(p, schedule, block, nowMs).ledger.startPrizePool == 0
  {
  }

  lemma AddUnbacked(s: State, t: State, id: Hash, r: Room)
    requires Solvent(s) && id !in s.rooms && 0 < id <= s.txCounter && RoomOk(r) && Backing(r) == 0
    requires t == s.(rooms := s.rooms[id := r], draws := t.draws)
    requires JackpotOk(s) && PoolTerm(r) == 0
    ensures Solvent(t) && JackpotOk(t)
  {
    hide Sum, Backing, RoomOk, PoolTerm;
    ReplaceRoom(s, t, id, r);
    PutTerm(s.rooms, id, r);
  }

  lemma MaybeOpenKeeps(p: Protocol, s: State, nowMs: int)
    requires p.Valid() && Inv(s)
    ensures var t := MaybeOpenGlobalDefense(p, s, nowMs); Inv(t) && Continues(s, t) && NothingOrphaned(s, t)
  {
    hide Inv, OpenGlobalDefense, IsGlobalDefenseDue, Continues, NothingOrphaned;
    StaysPut(s, s);
    if IsGlobalDefenseDue(p, s) {
      FreshId(s);
      NextHashKeeps(s);
      StaysPut(s, NextHash(s));
      OpenDrawKeeps(p, NextHash(s), nowMs, s.txCounter + 1);
      ContinuesChains(s, NextHash(s), MaybeOpenGlobalDefense(p, s, nowMs));
    }
  }

  lemma SettleDrawKeeps(s: State, id: Hash)
    requires Inv(s)
    ensures var t := SettleProtocolDraw(s, id); Inv(t) && Continues(s, t) && NothingOrphaned(s, t) && t.draws == s.draws
  {
    hide Sum, Backing, Orphaned, RoomOk, Solvent, Evolves, PoolTerm, JackpotOk, CreatorDue, Continues, NothingOrphaned;
    var t := SettleProtocolDraw(s, id);
    StaysPut(s, s);
    if t != s {
      var r := s.rooms[id];
      SolventRoom(s, id);
      PoolIsKnown(s);
      SettlementIsCreatorsDue(r);
      SettledBalances(r);
      SettledEvolves(r);
      SettledTerm(r);
      PutAndPool(s, id, Settled(r), r.ledger.startPrizePool);
      OneRoomKeeps(s, t, id);
      OneRoomContinues(s, t, id);
    }
  }

  lemma {:induction false} SettleDrawsKeep(s: State, count: nat)
    requires Inv(s)
    ensures var t := SettleProtocolDraws(s, count); Inv(t) && Continues(s, t) && NothingOrphaned(s, t) && t.draws == s.draws
  {
    hide Inv, SettleProtocolDraw, Continues, NothingOrphaned;
    if count == 0 {
      StaysPut(s, s);
    } else {
      var t := SettleProtocolDraws(s, count - 1);
      SettleDrawsKeep(s, count - 1);
      SettleDrawKeeps(t, count);
      ContinuesChains(s, t, SettleProtocolDraw(t, count));
    }
  }

  lemma {:induction false} SettleRoomsKeep(p: Protocol, s: State, count: nat, nowMs: int)
    requires p.Valid() && Inv(s)
    ensures var t := SettleRooms(p, s, count, nowMs); Inv(t) && Continues(s, t) && NothingOrphaned(s, t) && t.draws == s.draws
  {
    hide Inv, SettleLobby, Continues, NothingOrphaned;
    if count == 0 {
      StaysPut(s, s);
    } else {
      var t := SettleRooms(p, s, count - 1, nowMs);
      SettleRoomsKeep(p, s, count - 1, nowMs);
      SettleContinues(p, t, count, nowMs);
      ContinuesChains(s, t, SettleLobby(p, t, count, nowMs));
    }
  }

  lemma TopUpIdles(p: Protocol, s: State)
    requires p.Valid() && Inv(s)
    ensures MaybeTopUpGlobalDefense(p, s) == s
  {
    hide Solvent, MaybeTopUpGlobalDefense;
    TopUpIsIdle(p, s);
  }

  lemma SettleEverythingKeeps(p: Protocol, s: State, nowMs: int)
    requires p.Valid() && Inv(s)
    ensures var t := SettleEverything(p, s, nowMs); Inv(t) && Continues(s, t) && NothingOrphaned(s, t)
  {
    hide Inv, SettleRooms, SettleProtocolDraws, MaybeTopUpGlobalDefense, MaybeOpenGlobalDefense, Continues,
         NothingOrphaned;
    var t := SettleRooms(p, s, s.txCounter, nowMs);
    var u := SettleProtocolDraws(t, s.txCounter);
    SettleRoomsKeep(p, s, s.txCounter, nowMs);
    SettleDrawsKeep(t, s.txCounter);
    TopUpIdles(p, u);
    MaybeOpenKeeps(p, u, nowMs);
    ContinuesChains(s, t, u);
    ContinuesChains(s, u, SettleEverything(p, s, nowMs));
  }

  lemma MineKeeps(p: Protocol, s: State, nowMs: int)
    requires p.Valid() && Inv(s)
    ensures var t := MineBlock(p, s, nowMs); Inv(t) && Continues(s, t) && NothingOrphaned(s, t)
  {
    hide Inv, MaybeTopUpGlobalDefense, MaybeOpenGlobalDefense, Continues, NothingOrphaned;
    var t := s.(block := s.block + 1);
    assert Inv(t) by { ClockKeeps(s); }
    StaysPut(s, t);
    TopUpIdles(p, t);
    MaybeOpenKeeps(p, t, nowMs);
    ContinuesChains(s, t, MineBlock(p, s, nowMs));
  }

  lemma ClockKeeps(s: State)
    requires Inv(s)
    ensures Inv(s.(block := s.block + 1))
  {
    hide Sum, RoomOk;
  }

  /** What a confirmed join paid over: the record of a wallet that was already seated. */
  function Overwritten(p: Protocol, s: State, step: Step, id: Hash): int
    requires p.limits.epochBlocks > 0
  {
    if step.Write? && step.call.JoinLobby? && step.call.lobbyId == id && id in s.rooms && step.from in s.rooms[id].seats
       && WriteContract(p, s, step.from, step.call, step.nowMs).Confirmed?
    then s.rooms[id].seats[step.from].paidIn else 0
  }

  /** Each room's orphaned fees grow by what the step overwrote in it, and by nothing else. */
  ghost predicate OrphanedBy(p: Protocol, s: State, t: State, step: Step)
    requires p.limits.epochBlocks > 0
  {
    forall id :: id in t.rooms ==>
      Orphaned(t.rooms[id]) == (if id in s.rooms then Orphaned(s.rooms[id]) else 0) + Overwritten(p, s, step, id)
  }

  lemma LobbyCallKeeps(p: Protocol, s: State, from: Address, call: Call, nowMs: int)
    requires p.Valid() && Inv(s) && from != PROTOCOL_ESCROW_ADDRESS
    requires call.LeaveLobby? || call.BuyDrone? || call.SubmitPrivateAction? || call.RevealAttack? || call.ClaimReward?
             || call.ClaimRefund? || call.SettleCreator?
    ensures var t := WriteContract(p, s, from, call, nowMs).state;
            Inv(t) && Continues(NextHash(s), t) && NothingOrphaned(NextHash(s), t) && t.draws == s.draws
  {
    hide Inv, Continues, NothingOrphaned, OnlyRoom, ApplyLeaveLobby, ApplyBuyDrone, ApplyPrivateAction,
         ApplyRevealAttack, ApplyClaimReward, ApplyClaimRefund, ApplySettleCreator;
    NextHashKeeps(s);
    var u := NextHash(s);
    var t := WriteContract(p, s, from, call, nowMs).state;
    if call.lobbyId in u.rooms {
      match call {
        case LeaveLobby(id) => LeaveKeeps(p, u, from, id, nowMs);
        case BuyDrone(id, value) => BuyKeeps(p, u, from, id, value, nowMs);
        case SubmitPrivateAction(id, envelope) => PrivateActionKeeps(p, u, from, id, envelope, nowMs, u.txCounter);
        case RevealAttack(id, attackId) => RevealKeeps(p, u, from, id, attackId, nowMs);
        case ClaimReward(id, attackId) => ClaimRewardKeeps(p, u, from, id, attackId, nowMs);
        case ClaimRefund(id) => ClaimRefundKeeps(p, u, from, id, nowMs);
        case SettleCreator(id) => SettleCreatorKeeps(p, u, from, id, nowMs);
      }
      OnlyIsTouched(u, t, call.lobbyId);
      OneRoomContinues(u, t, call.lobbyId);
    } else {
      UnknownLobby(p, s, from, call, nowMs);
      StaysPut(u, t);
    }
  }

  /** Every lobby call on a lobby that does not exist is refused, and settles nothing. */
  lemma UnknownLobby(p: Protocol, s: State, from: Address, call: Call, nowMs: int)
    requires p.Valid()
    requires !call.CreateLobby? && !call.OpenDraw? && !call.CollectProbe? && call.lobbyId !in s.rooms
    ensures WriteContract(p, s, from, call, nowMs) == Failed(NextHash(s), LobbyNotFound)
  {
  }

  lemma WriteKeeps(p: Protocol, s: State, from: Address, call: Call, nowMs: int)
    requires p.Valid() && Inv(s) && from != PROTOCOL_ESCROW_ADDRESS
    ensures var t := WriteContract(p, s, from, call, nowMs).state;
            Inv(t) && Continues(s, t) && (!call.JoinLobby? ==> NothingOrphaned(s, t))
            && (call.JoinLobby? ==> OrphanedBy(p, s, t, Write(from, call, nowMs)))
            && (!call.OpenDraw? ==> t.draws == s.draws) && s.txCounter < t.txCounter
  {
    hide Inv, Continues, NothingOrphaned, Orphaned, ApplyCreateLobby, ApplyJoinLobby, OpenGlobalDefense, OrphanedBy,
         Touched;
    NextHashKeeps(s);
    FreshId(s);
    var u := NextHash(s);
    var t := WriteContract(p, s, from, call, nowMs).state;
    StaysPut(s, u);
    StaysPut(u, u);
    match call {
      case CreateLobby(config, value) =>
        CreateKeeps(p, u, from, config, value, nowMs, u.txCounter);
        if t != u { NewRoomContinues(u, t, u.txCounter); }
      case JoinLobby(id, value) =>
        JoinKeeps(u, from, id, value, nowMs);
        if t != u { OneRoomContinues(u, t, id); }
        JoinOrphans(p, s, from, id, value, nowMs);
      case OpenDraw => OpenDrawKeeps(p, u, nowMs, u.txCounter);
      case CollectProbe =>
      case _ => LobbyCallKeeps(p, s, from, call, nowMs);
    }
    ContinuesChains(s, u, t);
    ContinuesCounts(u, t);
  }

  lemma ContinuesCounts(s: State, t: State)
    requires Continues(s, t)
    ensures s.txCounter <= t.txCounter && s.block <= t.block && s.rooms.Keys <= t.rooms.Keys
  {
    hide Evolves;
  }

  lemma JoinOrphans(p: Protocol, s: State, from: Address, id: Hash, value: int, nowMs: int)
    requires p.Valid() && Inv(NextHash(s)) && from != PROTOCOL_ESCROW_ADDRESS
    ensures var step := Write(from, JoinLobby(id, value), nowMs); OrphanedBy(p, s, Next(p, s, step), step)
  {
    hide Inv, Orphaned, ApplyJoinLobby, Evolves;
    JoinKeeps(NextHash(s), from, id, value, nowMs);
  }

  /** One step of anything keeps the books balanced, keeps every final fact, and orphans only by a repeated join. */
  lemma NextKeeps(p: Protocol, s: State, step: Step)
    requires p.Valid() && Inv(s) && IsPlayerStep(step)
    ensures var t := Next(p, s, step); Inv(t) && Continues(s, t) && OrphanedBy(p, s, t, step)
  {
    hide Inv, Continues, Orphaned, MineBlock, SettleLobby, SettleEverything, SettleRooms, WriteContract;
    match step {
      case Mine(nowMs) => MineKeeps(p, s, nowMs);
      case ReadLobby(id, nowMs) => SettleContinues(p, s, id, nowMs);
      case ReadEverything(nowMs) => SettleEverythingKeeps(p, s, nowMs);
      case Inspect(nowMs) => SettleRoomsKeep(p, s, s.txCounter, nowMs);
      case Write(from, call, nowMs) => WriteKeeps(p, s, from, call, nowMs);
    }
  }

  // -------------------------------------------------------------- whole runs

  lemma GenesisIsSound(initialBlock: int)
    ensures Inv(CreateEmulatorState(initialBlock))
  {
  }

  /** Everything a run overwrote in one room. */
  function TotalOverwritten(p: Protocol, s: State, steps: seq<Step>, id: Hash): int
    requires p.limits.epochBlocks > 0
    decreases |steps|
  {
    if steps == [] then 0
    else
      var before := steps[..|steps| - 1];
      TotalOverwritten(p, s, before, id) + Overwritten(p, Run(p, s, before), steps[|steps| - 1], id)
  }

  lemma OverwritesWhatIsThere(p: Protocol, s: State, step: Step)
    requires p.Valid()
    ensures forall id :: id !in s.rooms ==> Overwritten(p, s, step, id) == 0
  {
    hide WriteContract;
  }

  lemma {:induction false} RunKeeps(p: Protocol, s: State, steps: seq<Step>)
    requires p.Valid() && Inv(s) && forall step :: step in steps ==> IsPlayerStep(step)
    ensures var t := Run(p, s, steps);
            && Inv(t) && Continues(s, t)
            && (forall id :: id !in t.rooms ==> TotalOverwritten(p, s, steps, id) == 0)
            && forall id :: id in t.rooms ==>
                 Orphaned(t.rooms[id]) == (if id in s.rooms then Orphaned(s.rooms[id]) else 0) + TotalOverwritten(p, s, steps, id)
    decreases |steps|
  {
    hide Inv, Evolves, Orphaned, Next, Overwritten, IsPlayerStep;
    if steps == [] {
      StaysPut(s, s);
    } else {
      var before, last := steps[..|steps| - 1], steps[|steps| - 1];
      RunKeeps(p, s, before);
      var t := Run(p, s, before);
      NextKeeps(p, t, last);
      ContinuesChains(s, t, Next(p, t, last));
      OverwritesWhatIsThere(p, t, last);
    }
  }

  /**
   * Whatever happens, a room is never dropped and only moves forward: its terms are those it was minted on, its team is
   * fixed once applications close, its attack is never rescheduled nor its path redrawn, attempts are only ever added, and
   * once it has an outcome or a published path, these never change. An ended room changes in nothing but its seats' payout
   * flags, its books' two payout markers and the reveal.
   */
  lemma LifecycleMovesForward(p: Protocol, s: State, steps: seq<Step>, id: Hash)
    requires p.Valid() && Inv(s) && (forall step :: step in steps ==> IsPlayerStep(step)) && id in s.rooms
    ensures var t := Run(p, s, steps);
            && id in t.rooms
            && var r, u := s.rooms[id], t.rooms[id];
            && u.creator == r.creator && MovesForward(r.status, u.status)
            && u.config == r.config.(prizePool := u.config.prizePool)
            && (r.status != Open ==> u.seats.Keys == r.seats.Keys)
            && (r.currentEpochId.Some? ==> u.currentEpochId == r.currentEpochId)
            && (r.attack.Some? ==> u.attack.Some? && AttackKept(r.attack.value, u.attack.value))
            && (r.trajectory.Some? ==> u.trajectory == r.trajectory) && r.attempts <= u.attempts
            && (r.outcome.Some? ==> u.outcome == r.outcome) && (r.revealed.Some? ==> u.revealed == r.revealed)
            && (r.ending != NotEnded ==>
                  u == r.(seats := u.seats, ledger := u.ledger, revealed := u.revealed)
                  && forall a :: a in r.seats ==> SeatEvolves(r.seats[a], u.seats[a]))
            && |u.seats| <= Max(0, u.config.maxPlayers)
  {
    hide Inv, Run, IsPlayerStep, Orphaned, AttackKept, SeatEvolves;
    RunKeeps(p, s, steps);
    SeatsFit(Run(p, s, steps), id);
  }

  /** A room never seats more than its limit. */
  lemma SeatsFit(s: State, id: Hash)
    requires Inv(s) && id in s.rooms
    ensures |s.rooms[id].seats| <= Max(0, s.rooms[id].config.maxPlayers)
  {
    hide Sum, StageOk, Orphaned;
  }

  // ---------------------------------------------------------- the escrow equation

  ghost function Liabilities(rooms: map<Hash, Room>): map<Hash, int> {
    map id | id in rooms :: Liability(rooms[id])
  }

  /** The protocol's creation fees and what mints carried beyond their cost. */
  ghost function FeesAndSurplus(rooms: map<Hash, Room>): map<Hash, int> {
    map id | id in rooms :: rooms[id].ledger.protocolFeeAccrued + rooms[id].overpaid
  }

  /** What a refunding room holds for records that no longer exist. */
  ghost function Strays(rooms: map<Hash, Room>): map<Hash, int> {
    map id | id in rooms :: if Refunding(rooms[id]) then Orphaned(rooms[id]) else 0
  }

  lemma BackingSplits(rooms: map<Hash, Room>)
    ensures Sum(Backings(rooms)) == Sum(Liabilities(rooms)) + Sum(FeesAndSurplus(rooms)) + Sum(Strays(rooms))
  {
    hide Sum, Liability, Orphaned;
    var retained := map id | id in rooms :: Retained(rooms[id]);
    SumAdd(FeesAndSurplus(rooms), Strays(rooms), retained);
    SumAdd(Liabilities(rooms), retained, Backings(rooms));
  }

  /**
   * After any run from genesis the escrow is, to the wei, what every room owes, the draw pool, the protocol's fees
   * with the mint surplus, and the strays of repeated joins; no payout was ever short, no balance is negative, and
   * balances as a whole only grow by opening accounts.
   */
  lemma EscrowIsExact(p: Protocol, initialBlock: int, steps: seq<Step>)
    requires p.Valid() && forall step :: step in steps ==> IsPlayerStep(step)
    ensures var t := Run(p, CreateEmulatorState(initialBlock), steps);
            && EscrowBalance(t) == Sum(Liabilities(t.rooms)) + t.pool + Sum(FeesAndSurplus(t.rooms)) + Sum(Strays(t.rooms))
            && !t.cannotPay && Sum(Gains(t.accounts)) == 0
            && t.pool >= 0 && (forall a :: a in t.accounts ==> t.accounts[a] >= 0)
            && (forall id :: id in t.rooms ==> Liability(t.rooms[id]) >= 0)
  {
    hide Sum, RoomOk, Liability, Run, IsPlayerStep, Retained;
    GenesisIsSound(initialBlock);
    RunKeeps(p, CreateEmulatorState(initialBlock), steps);
    var t := Run(p, CreateEmulatorState(initialBlock), steps);
    BackingSplits(t.rooms);
    forall id | id in t.rooms
      ensures Liability(t.rooms[id]) >= 0
    {
      BackingCovers(t.rooms[id]);
    }
  }

  /**
   * Escrow equals liabilities, pool, fees and surplus exactly when no room that refunds ever had a seated wallet
   * join it again with something already paid.
   */
  lemma ExactIffNoSeatOverwritten(p: Protocol, initialBlock: int, steps: seq<Step>)
    requires p.Valid() && forall step :: step in steps ==> IsPlayerStep(step)
    ensures var s := CreateEmulatorState(initialBlock);
            var t := Run(p, s, steps);
            (EscrowBalance(t) == Sum(Liabilities(t.rooms)) + t.pool + Sum(FeesAndSurplus(t.rooms))
             <==> forall id :: id in t.rooms && Refunding(t.rooms[id]) ==> TotalOverwritten(p, s, steps, id) == 0)
  {
    hide Sum, Liability, Orphaned, Run, IsPlayerStep, TotalOverwritten, Inv, EscrowBalance;
    var s := CreateEmulatorState(initialBlock);
    var t := Run(p, s, steps);
    GenesisIsSound(initialBlock);
    RunKeeps(p, s, steps);
    EscrowIsExact(p, initialBlock, steps);
    forall id | id in t.rooms
      ensures Orphaned(t.rooms[id]) >= 0
    {
      OrphansAreNotNegative(t, id);
    }
    SumVanishes(Strays(t.rooms));
    assert forall id :: id in t.rooms ==> Orphaned(t.rooms[id]) == TotalOverwritten(p, s, steps, id);
    assert forall id :: id in t.rooms && Refunding(t.rooms[id]) ==> Strays(t.rooms)[id] == Orphaned(t.rooms[id]);
  }

  lemma OrphansAreNotNegative(s: State, id: Hash)
    requires Inv(s) && id in s.rooms
    ensures Orphaned(s.rooms[id]) >= 0
  {
    hide Sum, StageOk;
  }

  /** An example chain: a three-seat minimum, an entry of ten wei, a bounty of five. */
  function ExampleProtocol(): (p: Protocol)
    ensures p.Valid()
  {
    Protocol(ProtocolLimits(3, 10, 0, 100, 0, 1000, 0, 50, 0, 0, 0, 0, 10, 1.0, 1.0, 1.0, 0, 0),
             0, 1, Grid(1, 1), 0, (id: Hash, e: int, b: int) => Trajectory(Point(0.0, 0.0), Point(0.0, 0.0)))
  }

  function ExampleConfig(): LobbyConfig { LobbyConfig(4, 3, 3, 10, 500, 0, 5, 0, 0, 0, 0, 0, 10, 1.0, 1.0, 1.0) }

  function ExampleMint(): Step { Write(1, CreateLobby(ExampleConfig(), 5), 0) }

  function ExampleJoin(): Step { Write(2, JoinLobby(1, 10), 0) }

  function ExampleRoom(): Room { MintedRoom(ExampleProtocol(), 1, ExampleConfig(), 5) }

  lemma ExampleMinted()
    ensures Next(ExampleProtocol(), CreateEmulatorState(0), ExampleMint())
            == State(0, 1, Credit(Credit(map[], 1, -5), PROTOCOL_ESCROW_ADDRESS, 5), 0, map[], map[1 := ExampleRoom()], false)
  {
  }

  lemma ExampleJoined(s: State, r: Room)
    requires !s.cannotPay && s.block == 0 && s.rooms == map[1 := r] && r.status == Open && r.participantCount < 3
    requires r.config == ExampleConfig() && r.creator == 1 && BalanceOf(s.accounts, 2) >= 10
    ensures Next(ExampleProtocol(), s, ExampleJoin())
            == s.(txCounter := s.txCounter + 1, rooms := map[1 := Joined(r, 2)],
                  accounts := Credit(Credit(s.accounts, 2, -10), PROTOCOL_ESCROW_ADDRESS, 10))
  {
    assert s.rooms[1 := Joined(r, 2)] == map[1 := Joined(r, 2)];
  }

  /** The twice-joined room, called off: one refund, the bounty, and ten wei left behind. */
  lemma ExampleCalledOff(s: State, r: Room)
    requires s.block == 0 && s.rooms == map[1 := r] && r.status == Open && r.participantCount == 2
    requires r.config == ExampleConfig() && r.creator == 1 && r.participantAddresses == [2, 2]
    requires !r.ledger.creatorSettled
    requires r.ledger.startPrizePool == 5
    requires r.seats == map[2 := NewParticipant(r)] && EscrowBalance(s) == 25
    ensures var t := SettleLobby(ExampleProtocol(), s, 1, 500);
            && 1 in t.rooms && t.rooms[1].status == Cancelled && t.rooms[1].ending == Unplayed
            && t.rooms[1].ledger.creatorSettled && t.rooms[1].seats == map[2 := NewParticipant(r).(refunded := true)]
            && EscrowBalance(t) == 10 && BalanceOf(t.accounts, 2) == BalanceOf(s.accounts, 2) + 10
  {
    var c := r.(status := Cancelled, ending := Unplayed);
    var s1 := Put(s, 1, c);
    assert JoinCost(c) == 10;
    var s2 := RefundSeat(s1, 1, 2);
    assert s2 == PayOut(Put(s1, 1, Refunded(c, 2)), 2, 10);
    assert RefundSeat(s2, 1, 2) == s2;
    assert [2, 2][1..] == [2] && [2][1..] == [];
    assert RefundSeats(s1, 1, [2, 2]) == s2;
    assert ReturnBounty(s2, 1) == PayOut(Put(s2, 1, Settled(Refunded(c, 2))), 1, 5);
  }

  /** One wallet joins twice, the room is called off: it is refunded once, and ten wei are nobody's. */
  lemma RejoiningStrands()
    ensures var steps := [ExampleMint(), ExampleJoin(), ExampleJoin(), ReadLobby(1, 500)];
            var t := Run(ExampleProtocol(), CreateEmulatorState(0), steps);
            && EscrowBalance(t) == 10 && 1 in t.rooms && Liability(t.rooms[1]) == 0
            && BalanceOf(t.accounts, 2) == DEFAULT_EMULATOR_BALANCE - 10
  {
    hide Next, SettleLobby;
    var p, s0 := ExampleProtocol(), CreateEmulatorState(0);
    var steps := [ExampleMint(), ExampleJoin(), ExampleJoin(), ReadLobby(1, 500)];
    ExampleMinted();
    var s1 := Next(p, s0, ExampleMint());
    ExampleJoined(s1, ExampleRoom());
    var s2 := Next(p, s1, ExampleJoin());
    ExampleJoined(s2, Joined(ExampleRoom(), 2));
    var s3 := Next(p, s2, ExampleJoin());
    ExampleCalledOff(s3, Joined(Joined(ExampleRoom(), 2), 2));
    ExampleRun(p, s0, steps);
    ReadSettles(p, s3, 1, 500);
    ExampleOwesNothing(Next(p, s3, ReadLobby(1, 500)).rooms[1]);
  }

  lemma ExampleRun(p: Protocol, s: State, steps: seq<Step>)
    requires p.Valid() && |steps| == 4
    ensures Run(p, s, steps) == Next(p, Next(p, Next(p, Next(p, s, steps[0]), steps[1]), steps[2]), steps[3])
  {
    hide Next;
    assert steps[..3][..2] == steps[..2] && steps[..2][..1] == steps[..1] && steps[..1][..0] == [];
    assert Run(p, s, steps[..1]) == Next(p, s, steps[0]);
    assert Run(p, s, steps[..2]) == Next(p, Run(p, s, steps[..1]), steps[1]);
    assert Run(p, s, steps[..3]) == Next(p, Run(p, s, steps[..2]), steps[2]);
  }

  lemma ReadSettles(p: Protocol, s: State, id: Hash, nowMs: int)
    requires p.Valid()
    ensures Next(p, s, ReadLobby(id, nowMs)) == SettleLobby(p, s, id, nowMs)
  {
  }

  lemma ExampleOwesNothing(r: Room)
    requires r.ending == Unplayed && r.ledger.creatorSettled && forall a :: a in r.seats ==> r.seats[a].refunded
    ensures Liability(r) == 0
  {
    SumZero(SeatDues(r));
  }
}
