/** What everybody is entitled to out of a finished room: paid in full, paid once, and adding up to what went in. */
module Entitlements {
  import opened Sums
  import opened Options
  import opened Numbers
  import opened World
  import opened Interception
  import opened EmulatorState
  import opened GameContract
  import opened Accounting
  import opened RoomMoves
  import opened RoomHistory
  import opened Solvency
  import opened Runs
  import opened Jackpot

  // ----------------------------------------------------------- one finished room

  /** Everything that was put in play: the bounty with any draw pool, entries, probes, commissions. */
  function PutInPlay(r: Room): int {
    r.ledger.startPrizePool + r.ledger.entryFeesCollected + r.ledger.probeFeesCollected + r.ledger.creatorFeeAccrued
  }

  /** A seat's whole entitlement, taken or not. */
  function SeatShare(r: Room, seat: Participant): int {
    if Refunding(r) then seat.paidIn
    else if Won(r) && seat.payoutState != NoPayout then r.outcome.value.rewardPerWinner
    else 0
  }

  ghost function SeatShares(r: Room): map<Address, int> {
    map a | a in r.seats :: SeatShare(r, r.seats[a])
  }

  function SeatTaken(r: Room, seat: Participant): int { SeatShare(r, seat) - SeatDue(r, seat) }

  ghost function SeatsTaken(r: Room): map<Address, int> {
    map a | a in r.seats :: SeatTaken(r, r.seats[a])
  }

  /** What has been taken out of a finished room so far. */
  ghost function TakenOut(r: Room): int {
    Sum(SeatsTaken(r)) + CreatorShare(r) - CreatorDue(r)
  }

  lemma SharesSplit(r: Room)
    ensures Sum(SeatShares(r)) == Sum(SeatsTaken(r)) + Sum(SeatDues(r))
  {
    hide Sum, SeatShare, SeatDue;
    SumAdd(SeatsTaken(r), SeatDues(r), SeatShares(r));
  }

  lemma WonShares(r: Room)
    requires RoomOk(r) && Won(r)
    ensures Sum(SeatShares(r)) == r.outcome.value.rewardPerWinner * |r.outcome.value.Winners()|
    ensures 0 <= r.outcome.value.rewardPerWinner * |r.outcome.value.Winners()| <= r.ledger.rewardPool
    ensures r.ledger.rewardPool < r.outcome.value.rewardPerWinner * |r.outcome.value.Winners()| + |r.outcome.value.Winners()|
  {
    hide Sum, BooksOk, AttemptsOk;
    var on := SetOfDistinct(r.outcome.value.Winners());
    assert forall a :: a in SeatShares(r) ==> SeatShares(r)[a] == if a in on then r.outcome.value.rewardPerWinner else 0;
    SumIndicator(SeatShares(r), on, r.outcome.value.rewardPerWinner);
    SharesFit(r.ledger.rewardPool, |r.outcome.value.Winners()|);
  }

  lemma RefundShares(r: Room)
    requires Refunding(r)
    ensures Sum(SeatShares(r)) == Sum(PaidIns(r.seats))
  {
    hide Sum;
    assert SeatShares(r) == PaidIns(r.seats);
  }

  lemma MissShares(r: Room)
    requires !Refunding(r) && !Won(r)
    ensures Sum(SeatShares(r)) == 0
  {
    hide Sum;
    SumZero(SeatShares(r));
  }

  /**
   * A finished room drains exactly: what was taken, what can still be taken and what was forfeited are what was put
   * in play, less only what repeated joins orphaned.
   */
  lemma FinishedRoomDrains(r: Room)
    requires RoomOk(r) && r.ending != NotEnded
    ensures TakenOut(r) + Liability(r) + ForfeitedBy(r) + (if Refunding(r) then Orphaned(r) else 0) == PutInPlay(r)
  {
    hide Sum, RoomOk, SeatDues, SeatShares, SeatsTaken, CompletedCreatorDue;
    SharesSplit(r);
    if Refunding(r) {
      RefundShares(r);
    } else if Won(r) {
      WonShares(r);
      WonPool(r);
      WonCreatorShare(r);
    } else {
      MissShares(r);
      MissedPool(r);
    }
  }

  /** A won round's creator is due the fee and the dust. */
  lemma WonCreatorShare(r: Room)
    requires Won(r) && r.outcome.value.rewardPerWinner * |r.outcome.value.Winners()| <= r.ledger.rewardPool
    ensures CompletedCreatorDue(r)
            == r.ledger.creatorFeeAccrued + r.ledger.rewardPool - r.outcome.value.rewardPerWinner * |r.outcome.value.Winners()|
  {
  }

  /** A missed round's creator is due the fee, and its reward pool is gone. */
  lemma MissedPool(r: Room)
    requires RoomOk(r) && r.ending != NotEnded && !Refunding(r) && !Won(r)
    ensures r.ending == Completed && r.ledger.rewardPool == 0 && CompletedCreatorDue(r) == r.ledger.creatorFeeAccrued
  {
    hide Sum, BooksOk, AttemptsOk;
  }

  lemma WonPool(r: Room)
    requires RoomOk(r) && Won(r)
    ensures r.ledger.rewardPool == r.ledger.startPrizePool + r.ledger.probeFeesCollected + r.ledger.entryFeesCollected
  {
    hide Sum, BooksOk, AttemptsOk;
  }

  /** Nothing is owed exactly when no seat and no creator is owed anything. */
  lemma NothingOwedIff(r: Room)
    requires RoomOk(r) && r.ending != NotEnded
    ensures Liability(r) == 0 <==> CreatorDue(r) == 0 && forall a :: a in r.seats ==> SeatDue(r, r.seats[a]) == 0
  {
    hide Sum, BooksOk, StageOk, CreatorDue, SeatDue;
    SeatDuesNonNegative(r);
    SumVanishes(SeatDues(r));
    assert forall a :: a in r.seats ==> SeatDues(r)[a] == SeatDue(r, r.seats[a]);
  }

  // ----------------------------------------------------------------- the quote

  /** The creator's settlement as every lobby read shows it. */
  function CreatorSettlement(r: Room): int {
    if r.status == Cancelled || r.ending == Unplayed || r.ending == CalledOff then r.ledger.startPrizePool
    else if r.status == Resolved then
      var paidToWinners := if r.outcome.Some? && r.outcome.value.Intercepted()
                           then r.outcome.value.rewardPerWinner * |r.outcome.value.Winners()| else 0;
      r.ledger.creatorFeeAccrued + Max(0, r.ledger.rewardPool - paidToWinners)
    else 0
  }

  /** The quote is the creator's entitlement, paid or still to be paid, and nothing before the room ends. */
  lemma QuoteIsTheEntitlement(r: Room)
    requires RoomOk(r)
    ensures CreatorSettlement(r) == if r.ending == NotEnded then 0 else CreatorShare(r)
    ensures r.ending != NotEnded && !r.ledger.creatorSettled ==> CreatorSettlement(r) == CreatorDue(r)
  {
    hide Sum, BooksOk, AttemptsOk;
  }

  // ------------------------------------------------------------------ the claims

  /** Only `who`'s balance grew, by `amount`, out of the escrow. */
  ghost predicate Pays(s: State, t: State, who: Address, amount: int) {
    && BalanceOf(t.accounts, who) == BalanceOf(s.accounts, who) + amount
    && EscrowBalance(t) == EscrowBalance(s) - amount && t.pool == s.pool
    && forall a :: a != who && a != PROTOCOL_ESCROW_ADDRESS ==> BalanceOf(t.accounts, a) == BalanceOf(s.accounts, a)
  }

  function CreatorPart(r: Room, who: Address): int { if who == r.creator then CreatorDue(r) else 0 }

  /** A reward claim is accepted exactly when it names the resolved attack and the seat is owed a reward. */
  lemma RewardAcceptedIffOwed(r: Room, from: Address, attackId: int)
    requires RoomOk(r)
    ensures RewardRefusal(r, from, attackId).None?
            <==> from in r.seats && Won(r) && r.outcome.value.attackId == attackId && SeatDue(r, r.seats[from]) > 0
  {
    hide Sum, BooksOk, AttemptsOk;
  }

  lemma SoundRoom(s: State, id: Hash)
    requires Inv(s) && id in s.rooms
    ensures Solvent(s) && RoomOk(s.rooms[id])
  {
    hide Sum, RoomOk;
  }

  /** An accepted reward claim pays the seat's due - and the creator's with it - once and for all. */
  lemma RewardPays(s: State, from: Address, id: Hash, attackId: int)
    requires Solvent(s) && id in s.rooms
    ensures var r := s.rooms[id];
            var tx := TakeReward(s, from, id, attackId);
            && (tx.Confirmed? <==> from in r.seats && Won(r) && r.outcome.value.attackId == attackId && SeatDue(r, r.seats[from]) > 0)
            && (tx.Confirmed? ==>
                  && Pays(s, tx.state, from, SeatDue(r, r.seats[from]) + CreatorPart(r, from))
                  && tx.state.rooms == s.rooms[id := Rewarded(r, from)] && from in Rewarded(r, from).seats
                  && SeatDue(Rewarded(r, from), Rewarded(r, from).seats[from]) == 0
                  && CreatorPart(Rewarded(r, from), from) == 0)
  {
    hide Sum, RoomOk, Solvent, SeatDue, PayOut, RewardRefusal, CreatorDue, Backing, Orphaned, Evolves, ClaimedFee, Won,
         Rewarded;
    var r := s.rooms[id];
    SolventRoom(s, id);
    RewardAcceptedIffOwed(r, from, attackId);
    if RewardRefusal(r, from, attackId).None? {
      WinnerIsOwed(r, from, attackId);
      ClaimedInFull(r, from, attackId);
      PutAndPay(s, id, Rewarded(r, from), from, r.outcome.value.rewardPerWinner + ClaimedFee(r, from));
      ClaimLeavesNothing(r, from);
    }
  }

  lemma ClaimRewardPays(p: Protocol, s0: State, from: Address, id: Hash, attackId: int, nowMs: int)
    requires p.Valid() && Inv(s0) && id in s0.rooms
    ensures var s := SettleLobby(p, s0, id, nowMs);
            var r := s.rooms[id];
            var tx := ApplyClaimReward(p, s0, from, id, attackId, nowMs);
            && (tx.Confirmed? <==> from in r.seats && Won(r) && r.outcome.value.attackId == attackId && SeatDue(r, r.seats[from]) > 0)
            && (tx.Confirmed? ==>
                  && Pays(s, tx.state, from, SeatDue(r, r.seats[from]) + CreatorPart(r, from))
                  && id in tx.state.rooms && from in tx.state.rooms[id].seats
                  && SeatDue(tx.state.rooms[id], tx.state.rooms[id].seats[from]) == 0
                  && CreatorPart(tx.state.rooms[id], from) == 0)
  {
    hide Inv, OnlyRoom, SettleLobby, TakeReward, RoomOk, Solvent, Won, SeatDue, Pays, CreatorPart, Rewarded;
    SettleKeeps(p, s0, id, nowMs);
    SoundRoom(SettleLobby(p, s0, id, nowMs), id);
    RewardPays(SettleLobby(p, s0, id, nowMs), from, id, attackId);
  }

  lemma ClaimLeavesNothing(r: Room, from: Address)
    requires RoomOk(r) && Won(r) && from in r.seats && r.status == Resolved
    ensures var t := Rewarded(r, from);
            from in t.seats && SeatDue(t, t.seats[from]) == 0 && CreatorPart(t, from) == 0
  {
    hide Sum, AttemptsOk, BooksOk;
    FeeIsCreatorsDue(r, from);
  }

  /** A refund is accepted exactly when the round never ran and something is owed; it pays all of it. */
  lemma RefundPays(s: State, from: Address, id: Hash)
    requires Solvent(s) && id in s.rooms && from != PROTOCOL_ESCROW_ADDRESS
    ensures var r := s.rooms[id];
            var due := (if from in r.seats then SeatDue(r, r.seats[from]) else 0) + CreatorPart(r, from);
            var tx := TakeRefund(s, from, id);
            && (tx.Confirmed? <==> Refunding(r) && due > 0)
            && (tx.Confirmed? ==>
                  && Pays(s, tx.state, from, due) && tx.state.rooms == s.rooms[id := PaidBack(r, from)]
                  && CreatorPart(PaidBack(r, from), from) == 0
                  && (from in r.seats ==>
                        from in PaidBack(r, from).seats && SeatDue(PaidBack(r, from), PaidBack(r, from).seats[from]) == 0))
  {
    hide Sum, Backing, Orphaned, RoomOk, Solvent, Evolves, PaidBack, SeatRefund, BountyRefund, PayOut, CreatorDue,
         SeatDue;
    var r := s.rooms[id];
    SolventRoom(s, id);
    if Refunding(r) {
      RefundedInFull(r, from);
      if TakeRefund(s, from, id).Confirmed? {
        PutAndPay(s, id, PaidBack(r, from), from, SeatRefund(r, from) + BountyRefund(r, from));
        RefundLeavesNothing(r, from);
      }
    }
  }

  lemma ClaimRefundPays(p: Protocol, s0: State, from: Address, id: Hash, nowMs: int)
    requires p.Valid() && Inv(s0) && id in s0.rooms && from != PROTOCOL_ESCROW_ADDRESS
    ensures var s := SettleLobby(p, s0, id, nowMs);
            var r := s.rooms[id];
            var due := (if from in r.seats then SeatDue(r, r.seats[from]) else 0) + CreatorPart(r, from);
            var tx := ApplyClaimRefund(p, s0, from, id, nowMs);
            && (tx.Confirmed? <==> Refunding(r) && due > 0)
            && (tx.Confirmed? ==>
                  && Pays(s, tx.state, from, due) && id in tx.state.rooms && CreatorPart(tx.state.rooms[id], from) == 0
                  && (from in r.seats ==>
                        from in tx.state.rooms[id].seats && SeatDue(tx.state.rooms[id], tx.state.rooms[id].seats[from]) == 0))
  {
    hide Inv, OnlyRoom, SettleLobby, TakeRefund, RoomOk, Solvent, Pays, PaidBack, CreatorPart, SeatDue;
    SettleKeeps(p, s0, id, nowMs);
    SoundRoom(SettleLobby(p, s0, id, nowMs), id);
    RefundPays(SettleLobby(p, s0, id, nowMs), from, id);
  }

  lemma RefundLeavesNothing(r: Room, from: Address)
    requires RoomOk(r) && Refunding(r)
    ensures var t := PaidBack(r, from);
            CreatorPart(t, from) == 0 && (from in r.seats ==> from in t.seats && SeatDue(t, t.seats[from]) == 0)
  {
    hide Sum, AttemptsOk;
    RefundingIsCancelled(r);
    FeesNonNegative(r);
  }

  lemma SettledOwesNothing(r: Room)
    ensures CreatorDue(Settled(r)) == 0 && (r.ledger.creatorSettled ==> CreatorDue(r) == 0)
  {
  }

  /** A settlement is accepted exactly when the room ended and its creator is owed; a draw's goes to the pool. */
  lemma SettlementPays(s: State, from: Address, id: Hash)
    requires Solvent(s) && id in s.rooms
    ensures var r := s.rooms[id];
            var tx := TakeSettlement(s, from, id);
            && (tx.Confirmed? <==> (r.ProtocolOwned() || from == r.creator) && r.ending != NotEnded && CreatorDue(r) > 0)
            && (tx.Confirmed? ==>
                  && tx.state.rooms == s.rooms[id := Settled(r)] && CreatorDue(Settled(r)) == 0
                  && (if r.ProtocolOwned() then tx.state.accounts == s.accounts && tx.state.pool == s.pool + CreatorDue(r)
                      else Pays(s, tx.state, r.creator, CreatorSettlement(r))))
  {
    hide Sum, RoomOk, Solvent, PayOut, CreatorDue, CreatorSettlement, Settled, Backing, Orphaned, CreatorShare,
         CompletedCreatorDue;
    var r := s.rooms[id];
    SolventRoom(s, id);
    SettledOwesNothing(r);
    if r.ending != NotEnded && !r.ledger.creatorSettled {
      SettlementIsCreatorsDue(r);
      SettledBalances(r);
      QuoteIsTheEntitlement(r);
      if !r.ProtocolOwned() {
        PutAndPay(s, id, Settled(r), r.creator, CreatorDue(r));
      }
    }
  }

  lemma SettleCreatorPays(p: Protocol, s0: State, from: Address, id: Hash, nowMs: int)
    requires p.Valid() && Inv(s0) && id in s0.rooms
    ensures var s := SettleLobby(p, s0, id, nowMs);
            var r := s.rooms[id];
            var tx := ApplySettleCreator(p, s0, from, id, nowMs);
            && (tx.Confirmed? <==> (r.ProtocolOwned() || from == r.creator) && r.ending != NotEnded && CreatorDue(r) > 0)
            && (tx.Confirmed? ==>
                  && id in tx.state.rooms && CreatorDue(tx.state.rooms[id]) == 0
                  && (if r.ProtocolOwned() then tx.state.accounts == s.accounts && tx.state.pool == s.pool + CreatorDue(r)
                      else Pays(s, tx.state, r.creator, CreatorSettlement(r))))
  {
    hide Inv, OnlyRoom, SettleLobby, TakeSettlement, RoomOk, Solvent, Pays, Settled, CreatorDue, CreatorSettlement;
    SettleKeeps(p, s0, id, nowMs);
    SoundRoom(SettleLobby(p, s0, id, nowMs), id);
    SettlementPays(SettleLobby(p, s0, id, nowMs), from, id);
  }

  // ------------------------------------------------------------------ over runs

  /** Once a room has ended, every entitlement is fixed, and what was taken stays taken. */
  lemma EntitlementsAreFinal(r: Room, t: Room)
    requires RoomOk(r) && RoomOk(t) && Evolves(r, t) && r.ending != NotEnded
    ensures t.ending == r.ending && t.seats.Keys == r.seats.Keys && CreatorShare(t) == CreatorShare(r)
    ensures CreatorDue(t) == 0 || CreatorDue(t) == CreatorDue(r)
    ensures forall a :: a in r.seats ==>
              SeatShare(t, t.seats[a]) == SeatShare(r, r.seats[a])
              && (SeatDue(t, t.seats[a]) == 0 || SeatDue(t, t.seats[a]) == SeatDue(r, r.seats[a]))
  {
    hide Sum, BooksOk, AttemptsOk;
  }

  /**
   * Whatever happens after a room has ended: nobody's entitlement changes, an entitlement once taken is never due
   * again, and what leaves the room is exactly what its liability falls by.
   */
  lemma PaidOnceOnly(p: Protocol, s: State, steps: seq<Step>, id: Hash)
    requires p.Valid() && Inv(s) && (forall step :: step in steps ==> IsPlayerStep(step))
    requires id in s.rooms && s.rooms[id].ending != NotEnded
    ensures var r := s.rooms[id];
            var t := Run(p, s, steps);
            && id in t.rooms && t.rooms[id].ending == r.ending && t.rooms[id].seats.Keys == r.seats.Keys
            && CreatorShare(t.rooms[id]) == CreatorShare(r)
            && (CreatorDue(t.rooms[id]) == 0 || CreatorDue(t.rooms[id]) == CreatorDue(r))
            && (forall a :: a in r.seats ==>
                  && SeatShare(t.rooms[id], t.rooms[id].seats[a]) == SeatShare(r, r.seats[a])
                  && (SeatDue(t.rooms[id], t.rooms[id].seats[a]) == 0
                      || SeatDue(t.rooms[id], t.rooms[id].seats[a]) == SeatDue(r, r.seats[a])))
            && TakenOut(t.rooms[id]) - TakenOut(r) == Liability(r) - Liability(t.rooms[id]) >= 0
  {
    hide Sum, RoomOk, Run, IsPlayerStep, Solvent, TakenOut, Liability, SeatShare, SeatDue, CreatorDue, CreatorShare,
         Evolves;
    RunKeeps(p, s, steps);
    var t := Run(p, s, steps);
    SolventRoom(s, id);
    SolventRoom(t, id);
    assert Evolves(s.rooms[id], t.rooms[id]);
    EntitlementsAreFinal(s.rooms[id], t.rooms[id]);
    LiabilityFallsByWhatIsTaken(s.rooms[id], t.rooms[id]);
  }

  lemma LiabilityFallsByWhatIsTaken(r: Room, t: Room)
    requires RoomOk(r) && RoomOk(t) && Evolves(r, t) && r.ending != NotEnded
    ensures TakenOut(t) - TakenOut(r) == Liability(r) - Liability(t) >= 0
  {
    hide Sum, RoomOk, TakenOut, SeatShare, SeatDue, CreatorDue, CreatorShare;
    FinishedRoomDrains(r);
    EntitlementsAreFinal(r, t);
    FinishedRoomDrains(t);
    SameSeatMoney(r, t);
    forall a | a in SeatDues(t)
      ensures SeatDues(t)[a] <= SeatDues(r)[a]
    {
      SeatDuesNonNegative(r);
      assert SeatDues(r)[a] >= 0;
    }
    SumLeq(SeatDues(t), SeatDues(r));
    SeatDuesNonNegative(r);
  }

  lemma SameSeatMoney(r: Room, t: Room)
    requires RoomOk(r) && Evolves(r, t) && r.ending != NotEnded
    ensures PutInPlay(t) == PutInPlay(r) && ForfeitedBy(t) == ForfeitedBy(r) && Refunding(t) == Refunding(r)
    ensures Refunding(r) ==> Orphaned(t) == Orphaned(r)
  {
    hide Sum, BooksOk, AttemptsOk;
    if Refunding(r) {
      assert PaidIns(t.seats) == PaidIns(r.seats);
    }
  }

  /** A room that ever pays a reward never pays a refund afterwards, and the other way round. */
  lemma RewardExcludesRefund(p: Protocol, s0: State, id: Hash, nowMs: int, steps: seq<Step>, winner: Address,
                             attackId: int, other: Address, later: int)
    requires p.Valid() && Inv(s0) && id in s0.rooms && (forall step :: step in steps ==> IsPlayerStep(step))
    requires winner != PROTOCOL_ESCROW_ADDRESS && other != PROTOCOL_ESCROW_ADDRESS
    ensures var reward := ApplyClaimReward(p, s0, winner, id, attackId, nowMs);
            reward.Confirmed? ==> ApplyClaimRefund(p, Run(p, reward.state, steps), other, id, later).Failed?
    ensures var refund := ApplyClaimRefund(p, s0, other, id, nowMs);
            refund.Confirmed? ==> ApplyClaimReward(p, Run(p, refund.state, steps), winner, id, attackId, later).Failed?
  {
    hide Inv, Run, IsPlayerStep, ApplyClaimReward, ApplyClaimRefund, SettleLobby, Pays, SeatDue, CreatorPart, Won,
         Refunding;
    var reward := ApplyClaimReward(p, s0, winner, id, attackId, nowMs);
    if reward.Confirmed? {
      EndingAtClaim(p, s0, id, nowMs, winner, attackId, other);
      EndingStays(p, reward.state, id, steps, later);
      ClaimRefundPays(p, Run(p, reward.state, steps), other, id, later);
      CompletedNotRefunding();
    }
    var refund := ApplyClaimRefund(p, s0, other, id, nowMs);
    if refund.Confirmed? {
      EndingAtClaim(p, s0, id, nowMs, winner, attackId, other);
      EndingStays(p, refund.state, id, steps, later);
      ClaimRewardPays(p, Run(p, refund.state, steps), winner, id, attackId, later);
      CompletedNotRefunding();
    }
  }

  lemma CompletedNotRefunding()
    ensures forall r: Room :: Refunding(r) <==> r.ending == Unplayed || r.ending == CalledOff
    ensures forall r: Room :: Won(r) ==> r.ending == Completed
  {
  }

  lemma EndingAtClaim(p: Protocol, s0: State, id: Hash, nowMs: int, winner: Address, attackId: int, other: Address)
    requires p.Valid() && Inv(s0) && id in s0.rooms && winner != PROTOCOL_ESCROW_ADDRESS
    requires other != PROTOCOL_ESCROW_ADDRESS
    ensures var reward := ApplyClaimReward(p, s0, winner, id, attackId, nowMs);
            reward.Confirmed? ==> Inv(reward.state) && id in reward.state.rooms && reward.state.rooms[id].ending == Completed
    ensures var refund := ApplyClaimRefund(p, s0, other, id, nowMs);
            refund.Confirmed? ==> Inv(refund.state) && id in refund.state.rooms && refund.state.rooms[id].ending in {Unplayed, CalledOff}
  {
    hide Inv, Sum, SettleLobby, PayOut, RewardRefusal, OnlyRoom, CreatorDue, SeatDue;
    ClaimRewardPays(p, s0, winner, id, attackId, nowMs);
    ClaimRewardKeeps(p, s0, winner, id, attackId, nowMs);
    ClaimRefundPays(p, s0, other, id, nowMs);
    ClaimRefundKeeps(p, s0, other, id, nowMs);
    PayOutKeepsRooms();
  }

  lemma PayOutKeepsRooms()
    ensures forall s: State, a: Address, n: int :: PayOut(s, a, n).rooms == s.rooms
  {
  }

  lemma EndingStays(p: Protocol, s: State, id: Hash, steps: seq<Step>, later: int)
    requires p.Valid() && Inv(s) && id in s.rooms && (forall step :: step in steps ==> IsPlayerStep(step))
    requires s.rooms[id].ending != NotEnded
    ensures var t := Run(p, s, steps);
            Inv(t) && id in t.rooms && SettleLobby(p, t, id, later).rooms[id].ending == s.rooms[id].ending
  {
    hide Inv, Run, IsPlayerStep, SettleLobby, Orphaned;
    RunKeeps(p, s, steps);
    var t := Run(p, s, steps);
    assert Evolves(s.rooms[id], t.rooms[id]);
    SettleKeeps(p, t, id, later);
  }
}
