/**
 * What the protocol owes: the liability of each room as a function of its state, and the invariant that
 * the escrow balance is exactly the liabilities plus the draw pool plus what nobody can claim.
 */
module Accounting {
  import opened Sums
  import opened Options
  import opened Numbers
  import opened World
  import opened Interception
  import GlobalDefense
  import opened EmulatorState
  import opened GameContract

  // ------------------------------------------------------------ one room

  ghost function PaidIns(seats: map<Address, Participant>): map<Address, int> {
    map a | a in seats :: seats[a].paidIn
  }

  ghost function ProbeSpends(seats: map<Address, Participant>): map<Address, int> {
    map a | a in seats :: seats[a].probesPaid
  }

  predicate Refunding(r: Room) { r.ending == Unplayed || r.ending == CalledOff }

  predicate Won(r: Room) { r.ending == Completed && r.outcome.Some? && r.outcome.value.Intercepted() }

  /** What one seat can still take out of a finished room. */
  function SeatDue(r: Room, seat: Participant): int {
    if Refunding(r) then (if seat.refunded then 0 else seat.paidIn)
    else if Won(r) && seat.payoutState == PayoutPending then r.outcome.value.rewardPerWinner
    else 0
  }

  ghost function SeatDues(r: Room): map<Address, int> {
    map a | a in r.seats :: SeatDue(r, r.seats[a])
  }

  /** What the creator can still take out of a finished room. */
  function CreatorDue(r: Room): int {
    if r.ledger.creatorSettled then 0
    else if Refunding(r) then r.ledger.startPrizePool
    else CompletedCreatorDue(r)
  }

  /** What the ledger holds while the room is running. */
  function InPlay(r: Room): int {
    r.ledger.rewardPool + r.ledger.creatorFeeAccrued + if r.status == Active then 0 else r.ledger.entryFeesCollected
  }

  ghost function Liability(r: Room): int {
    if r.ending == NotEnded then InPlay(r) else Sum(SeatDues(r)) + CreatorDue(r)
  }

  /** Fees paid for seats whose record was later replaced: collected, and owed to no seat. */
  ghost function Orphaned(r: Room): int {
    r.ledger.entryFeesCollected + r.ledger.creatorFeeAccrued + r.ledger.probeFeesCollected - Sum(PaidIns(r.seats))
  }

  /** What stays with the protocol: its fee, the mint's overpayment, and orphaned fees once refunds are all that is owed. */
  ghost function Retained(r: Room): int {
    r.ledger.protocolFeeAccrued + r.overpaid + if Refunding(r) then Orphaned(r) else 0
  }

  ghost function Backing(r: Room): int { Liability(r) + Retained(r) }

  // --------------------------------------------------- what a room keeps true

  /** The ledger against the seats. */
  ghost predicate BooksOk(r: Room) {
    && r.config.entryPrice >= 0 && r.config.probePrice >= 0 && Commission(r) >= 0
    && r.ledger.startPrizePool >= 0 && r.ledger.protocolFeeAccrued >= 0 && r.overpaid >= 0
    && |r.seats| <= r.participantCount <= Max(0, r.config.maxPlayers)
    && r.ledger.entryFeesCollected == r.config.entryPrice * r.participantCount
    && r.ledger.creatorFeeAccrued == Commission(r) * r.participantCount
    && Sum(ProbeSpends(r.seats)) <= r.ledger.probeFeesCollected
    && Orphaned(r) >= 0
    && (forall a :: a in r.seats ==> SeatOk(r, a))
  }

  predicate SeatOk(r: Room, a: Address)
    requires a in r.seats
  {
    && a != PROTOCOL_ESCROW_ADDRESS && a in r.participantAddresses
    && r.seats[a].probesPaid >= 0 && r.seats[a].paidIn == JoinCost(r) + r.seats[a].probesPaid
  }

  /** A seat nobody has paid out of. */
  predicate Untouched(seat: Participant) { !seat.refunded && seat.payoutState == NoPayout }

  /** At most one Defense per seat, everyone who placed one has acted, and a locked seat has its attempt on file. */
  ghost predicate AttemptsOk(r: Room) {
    && (forall i, j :: 0 <= i < j < |r.attempts| ==> r.attempts[i].participant != r.attempts[j].participant)
    && (forall i :: 0 <= i < |r.attempts| ==> AttemptOk(r, r.attempts[i]))
    && (forall a :: a in r.seats && r.seats[a].defenseAttemptIds != [] ==> HasAttempt(r, a))
  }

  predicate HasAttempt(r: Room, a: Address) { exists x :: x in r.attempts && x.participant == a }

  predicate AttemptOk(r: Room, a: StoredAttempt) {
    && a.participant in r.seats && r.seats[a.participant].actionCount > 0
    && r.seats[a.participant].defenseAttemptIds != [] && a.id in r.points
  }

  /** Where a room stands, and what that settles about its ledger, its attack and its payouts. */
  ghost predicate StageOk(r: Room) {
    && AttemptsOk(r)
    && match r.status
       case Open => Forming(r)
       case Ready => Forming(r)
       case Active =>
         && r.ending == NotEnded && r.outcome.None? && r.revealed.None? && !r.ledger.creatorSettled
         && r.attack.Some? && r.attack.value.status != AttackResolved && r.trajectory.Some?
         && r.ledger.rewardPool == r.ledger.startPrizePool + r.ledger.probeFeesCollected + r.ledger.entryFeesCollected
         && (forall a :: a in r.seats ==> Untouched(r.seats[a]))
         && (r.attack.value.status == AttackPending ==> forall a :: a in r.seats ==> r.seats[a].defenseAttemptIds == [])
       case Resolved =>
         && r.ending == Completed && r.outcome.Some? && Finished(r) && r.ledger.rewardPool >= 0
         && (forall a :: a in r.seats ==> !r.seats[a].refunded)
         && (if r.outcome.value.Intercepted()
             then PayoutsOk(r) && r.ledger.rewardPool == r.ledger.startPrizePool + r.ledger.probeFeesCollected + r.ledger.entryFeesCollected
             else r.ledger.rewardPool == 0 && forall a :: a in r.seats ==> Untouched(r.seats[a]))
       case Cancelled =>
         && r.ending == Unplayed && (r.attack.Some? ==> r.outcome.Some? && Finished(r))
         && (r.outcome.Some? ==> !r.outcome.value.Intercepted())
         && forall a :: a in r.seats ==> r.seats[a].payoutState == NoPayout
  }

  ghost predicate Forming(r: Room) {
    && r.ending == NotEnded && r.attack.None? && r.outcome.None? && r.revealed.None? && r.trajectory.None?
    && !r.ledger.creatorSettled && r.attempts == []
    && r.ledger.rewardPool == r.ledger.startPrizePool + r.ledger.probeFeesCollected
    && forall a :: a in r.seats ==> Untouched(r.seats[a]) && r.seats[a].actionCount == 0 && r.seats[a].defenseAttemptIds == []
  }

  predicate Finished(r: Room) {
    && r.attack.Some? && r.attack.value.status == AttackResolved && r.trajectory.Some?
    && r.outcome.Some? && r.outcome.value.attackId == r.attack.value.epochId
  }

  /** A won round: distinct seated winners, an equal floor share, and a payout state exactly for them. */
  ghost predicate PayoutsOk(r: Room)
    requires r.outcome.Some?
  {
    var o := r.outcome.value;
    && o.Winners() != []
    && (forall i, j :: 0 <= i < j < |o.Winners()| ==> o.Winners()[i] != o.Winners()[j])
    && (forall w :: w in o.Winners() ==> w in r.seats && r.seats[w].defenseAttemptIds != [])
    && o.rewardPerWinner == r.ledger.rewardPool / |o.Winners()|
    && (forall a :: a in r.seats ==> (r.seats[a].payoutState != NoPayout <==> a in o.Winners()))
  }

  ghost predicate RoomOk(r: Room) { BooksOk(r) && StageOk(r) }

  // ------------------------------------------------------------ all of them

  ghost function Backings(rooms: map<Hash, Room>): map<Hash, int> {
    map id | id in rooms :: Backing(rooms[id])
  }

  /** Every account's balance over what it was opened with. */
  ghost function Gains(accounts: map<Address, int>): map<Address, int> {
    map a | a in accounts :: accounts[a] - OpeningBalance(a)
  }

  /** The books balance to the wei, and nothing was ever refused for want of escrow. */
  ghost predicate Balanced(s: State) {
    && EscrowBalance(s) == Sum(Backings(s.rooms)) + s.pool
    && Sum(Gains(s.accounts)) == 0
    && s.pool >= 0 && !s.cannotPay
    && (forall a :: a in s.accounts ==> s.accounts[a] >= 0)
  }

  ghost predicate RoomsOk(s: State) {
    forall id :: id in s.rooms ==> RoomOk(s.rooms[id]) && 0 < id <= s.txCounter
  }

  ghost predicate Solvent(s: State) { RoomsOk(s) && Balanced(s) }

  /** READY is never a state at rest. */
  ghost predicate AtRest(s: State) {
    forall id :: id in s.rooms ==> s.rooms[id].status != Ready
  }

  // --------------------------------------------------- non-negative liability

  lemma ProductNonNegative(a: int, b: int)
    requires a >= 0 && b >= 0
    ensures a * b >= 0
  {
  }

  lemma FeesNonNegative(r: Room)
    requires BooksOk(r)
    ensures r.ledger.entryFeesCollected >= 0 && r.ledger.creatorFeeAccrued >= 0 && r.ledger.probeFeesCollected >= 0
    ensures JoinCost(r) >= 0 && forall a :: a in r.seats ==> r.seats[a].paidIn >= 0
  {
    ProductNonNegative(r.config.entryPrice, r.participantCount);
    ProductNonNegative(Commission(r), r.participantCount);
    assert forall a :: a in r.seats ==> SeatOk(r, a);
    SumNonNegative(ProbeSpends(r.seats));
  }

  lemma SeatDuesNonNegative(r: Room)
    requires RoomOk(r)
    ensures forall a :: a in SeatDues(r) ==> SeatDues(r)[a] >= 0
    ensures Sum(SeatDues(r)) >= 0
    ensures CreatorDue(r) >= 0
  {
    hide Sum;
    FeesNonNegative(r);
    if Won(r) {
      ShareNonNegative(r.ledger.rewardPool, |r.outcome.value.Winners()|);
    }
    forall a | a in r.seats
      ensures SeatDue(r, r.seats[a]) >= 0
    {
    }
    SumNonNegative(SeatDues(r));
  }

  lemma ShareNonNegative(pool: int, n: nat)
    requires pool >= 0 && n > 0
    ensures pool / n >= 0
  {
  }

  lemma InPlayNonNegative(r: Room)
    requires RoomOk(r) && r.ending == NotEnded
    ensures InPlay(r) >= 0
  {
    hide Sum, AttemptsOk;
    FeesNonNegative(r);
  }

  /** No room ever owes a negative amount, nor retains one, and no seat is owed more than the room. */
  lemma BackingCovers(r: Room)
    requires RoomOk(r)
    ensures Liability(r) >= 0 && Retained(r) >= 0
    ensures r.ending != NotEnded ==>
              0 <= CreatorDue(r) && forall a :: a in r.seats ==> 0 <= SeatDue(r, r.seats[a]) <= Liability(r) - CreatorDue(r)
  {
    hide Sum, StageOk, CreatorDue, SeatDue, InPlay;
    SeatDuesNonNegative(r);
    if r.ending == NotEnded {
      InPlayNonNegative(r);
    } else {
      forall a | a in r.seats
        ensures 0 <= SeatDue(r, r.seats[a]) <= Sum(SeatDues(r))
      {
        assert SeatDues(r)[a] == SeatDue(r, r.seats[a]);
        SumCovers(SeatDues(r), a);
      }
    }
  }

  /** The escrow holds at least any one room's backing and the draw pool beside it. */
  lemma EscrowCovers(s: State, id: Hash)
    requires Solvent(s) && id in s.rooms
    ensures EscrowBalance(s) >= Backing(s.rooms[id]) + s.pool
  {
    forall j | j in s.rooms
      ensures Backing(s.rooms[j]) >= 0
    {
      BackingCovers(s.rooms[j]);
    }
    SumCovers(Backings(s.rooms), id);
  }

  // ------------------------------------------------------------ moving money

  lemma CreditGains(accounts: map<Address, int>, a: Address, amount: int)
    ensures Sum(Gains(Credit(accounts, a, amount))) == Sum(Gains(accounts)) + amount
  {
    hide Sum;
    var to := Credit(accounts, a, amount);
    assert Gains(to) == Gains(accounts)[a := to[a] - OpeningBalance(a)];
    SumUpdate(Gains(accounts), a, to[a] - OpeningBalance(a));
  }

  /** A transfer leaves the total alone. */
  lemma TransferGains(accounts: map<Address, int>, from: Address, to: Address, amount: int)
    ensures Sum(Gains(Credit(Credit(accounts, from, -amount), to, amount))) == Sum(Gains(accounts))
  {
    hide Sum, Gains, Credit;
    CreditGains(accounts, from, -amount);
    CreditGains(Credit(accounts, from, -amount), to, amount);
  }

  lemma EscrowMoves(s: State, from: Address, amount: int)
    requires from != PROTOCOL_ESCROW_ADDRESS && amount >= 0 && Escrow(s, from, amount).Some?
    requires Balanced(s)
    ensures var t := Escrow(s, from, amount).value;
            && t == s.(accounts := t.accounts)
            && EscrowBalance(t) == EscrowBalance(s) + amount
            && BalanceOf(t.accounts, from) == BalanceOf(s.accounts, from) - amount
            && Sum(Gains(t.accounts)) == 0
            && (forall a :: a in t.accounts ==> t.accounts[a] >= 0)
  {
    hide Sum, Gains;
    TransferGains(s.accounts, from, PROTOCOL_ESCROW_ADDRESS, amount);
  }

  lemma PayOutMoves(s: State, to: Address, amount: int)
    requires to != PROTOCOL_ESCROW_ADDRESS && 0 <= amount <= EscrowBalance(s)
    requires Sum(Gains(s.accounts)) == 0 && forall a :: a in s.accounts ==> s.accounts[a] >= 0
    ensures var t := PayOut(s, to, amount);
            && t == s.(accounts := t.accounts)
            && EscrowBalance(t) == EscrowBalance(s) - amount
            && BalanceOf(t.accounts, to) == BalanceOf(s.accounts, to) + amount
            && (forall a :: a != to && a != PROTOCOL_ESCROW_ADDRESS ==> BalanceOf(t.accounts, a) == BalanceOf(s.accounts, a))
            && Sum(Gains(t.accounts)) == 0
            && (forall a :: a in t.accounts ==> t.accounts[a] >= 0)
  {
    hide Sum, Gains;
    if amount > 0 {
      TransferGains(s.accounts, PROTOCOL_ESCROW_ADDRESS, to, amount);
    }
  }

  /** Replacing one room moves the total backing by that room's difference. */
  lemma PutBacking(rooms: map<Hash, Room>, id: Hash, r: Room)
    ensures Sum(Backings(rooms[id := r]))
            == Sum(Backings(rooms)) - (if id in rooms then Backing(rooms[id]) else 0) + Backing(r)
  {
    hide Sum, Backing;
    assert Backings(rooms[id := r]) == Backings(rooms)[id := Backing(r)];
    SumUpdate(Backings(rooms), id, Backing(r));
  }

  /**
   * The one step every transition is an instance of: one room is replaced by another legal one, and the
   * escrow moves by exactly what that room's backing and the pool move by.
   */
  lemma ReplaceRoom(s: State, t: State, id: Hash, r: Room)
    requires Solvent(s) && t.rooms == s.rooms[id := r] && RoomOk(r)
    requires 0 < id <= t.txCounter && s.txCounter <= t.txCounter
    requires EscrowBalance(t) - EscrowBalance(s)
             == Backing(r) - (if id in s.rooms then Backing(s.rooms[id]) else 0) + t.pool - s.pool
    requires t.pool >= 0 && !t.cannotPay && Sum(Gains(t.accounts)) == 0
    requires forall a :: a in t.accounts ==> t.accounts[a] >= 0
    ensures Solvent(t)
  {
    hide Sum, Backing, RoomOk, Gains;
    PutBacking(s.rooms, id, r);
  }

  // ------------------------------------------------------------ seat updates

  lemma SeatUpdateSums(seats: map<Address, Participant>, a: Address, seat: Participant)
    ensures Sum(PaidIns(seats[a := seat])) == Sum(PaidIns(seats)) - (if a in seats then seats[a].paidIn else 0) + seat.paidIn
    ensures Sum(ProbeSpends(seats[a := seat]))
            == Sum(ProbeSpends(seats)) - (if a in seats then seats[a].probesPaid else 0) + seat.probesPaid
  {
    hide Sum;
    assert PaidIns(seats[a := seat]) == PaidIns(seats)[a := seat.paidIn];
    SumUpdate(PaidIns(seats), a, seat.paidIn);
    assert ProbeSpends(seats[a := seat]) == ProbeSpends(seats)[a := seat.probesPaid];
    SumUpdate(ProbeSpends(seats), a, seat.probesPaid);
  }

  lemma SeatRemovalSums(seats: map<Address, Participant>, a: Address)
    requires a in seats
    ensures Sum(PaidIns(seats - {a})) == Sum(PaidIns(seats)) - seats[a].paidIn
    ensures Sum(ProbeSpends(seats - {a})) == Sum(ProbeSpends(seats)) - seats[a].probesPaid
    ensures |seats - {a}| == |seats| - 1
  {
    SumAt(PaidIns(seats), a);
    assert Without(PaidIns(seats), a) == PaidIns(seats - {a});
    SumAt(ProbeSpends(seats), a);
    assert Without(ProbeSpends(seats), a) == ProbeSpends(seats - {a});
    assert (seats - {a}).Keys == seats.Keys - {a};
    assert |seats| == |seats.Keys|;
    assert |(seats - {a})| == |(seats - {a}).Keys|;
  }

  lemma SeatDueUpdate(r: Room, a: Address, seat: Participant)
    requires a in r.seats
    ensures var t := r.(seats := r.seats[a := seat]);
            Sum(SeatDues(t)) == Sum(SeatDues(r)) - SeatDue(r, r.seats[a]) + SeatDue(r, seat)
  {
    hide Sum;
    var t := r.(seats := r.seats[a := seat]);
    assert forall x :: SeatDue(t, x) == SeatDue(r, x);
    assert SeatDues(t) == SeatDues(r)[a := SeatDue(r, seat)];
    SumUpdate(SeatDues(r), a, SeatDue(r, seat));
  }
}
