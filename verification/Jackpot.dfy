/** Where the draw pool's money is: what each room contributed to the pool, and what each draw holds of it. */
module Jackpot {
  import opened Options
  import opened World
  import opened Interception
  import opened GlobalDefense
  import opened EmulatorState
  import opened GameContract
  import opened Accounting
  import opened RoomMoves
  import opened RoomHistory

  /** The creator's whole entitlement in a finished room, taken or not. */
  function CreatorShare(r: Room): int {
    if Refunding(r) then r.ledger.startPrizePool else CompletedCreatorDue(r)
  }

  /** What a played round nobody won gave up to the draw pool. */
  function ForfeitedBy(r: Room): int {
    if r.ending == Completed && !Won(r)
    then r.ledger.startPrizePool + r.ledger.entryFeesCollected + r.ledger.probeFeesCollected - r.ledger.rewardPool
    else 0
  }

  /** What a draw is holding of the pool's money: running, or called off and not settled yet. A player's room holds none. */
  function Stake(r: Room): int {
    if r.ProtocolOwned() && (r.ending == NotEnded || (Refunding(r) && !r.ledger.creatorSettled)) then r.ledger.startPrizePool else 0
  }

  /** The pool's money that a draw's winners won. */
  function WonAway(r: Room): int { if r.ProtocolOwned() && Won(r) then r.ledger.startPrizePool else 0 }

  /** Money that reached the pool for the first time here: a missed round's, less the stake a missed draw only gave back. */
  function FirstForfeited(r: Room): int {
    ForfeitedBy(r) - if r.ending == Completed && !Won(r) && r.ProtocolOwned() then r.ledger.startPrizePool else 0
  }

  /** What a settled draw returned of a prize its winners could not divide. */
  function DustBack(r: Room): int {
    if r.ProtocolOwned() && r.ending == Completed && r.ledger.creatorSettled then CompletedCreatorDue(r) else 0
  }

  /** A room's contribution to the pool: what it brought, less what it holds and what was won of it. */
  function PoolTerm(r: Room): int { FirstForfeited(r) + DustBack(r) - Stake(r) - WonAway(r) }

  lemma RunningTerm(r: Room, t: Room)
    requires r.ending == NotEnded == t.ending && !r.ledger.creatorSettled && !t.ledger.creatorSettled
    requires t.creator == r.creator && t.ledger.startPrizePool == r.ledger.startPrizePool
    ensures PoolTerm(t) == PoolTerm(r)
  {
  }

  lemma UnfilledTerm(r: Room)
    requires RoomOk(r) && r.status == Open
    ensures PoolTerm(r.(status := Cancelled, ending := Unplayed)) == PoolTerm(r)
  {
    hide BooksOk;
  }

  lemma ActivatedTerm(p: Protocol, r: Room, id: Hash, block: int, pooled: int)
    requires p.Valid() && RoomOk(r) && r.status == Ready && (!r.ProtocolOwned() ==> pooled == 0)
    ensures PoolTerm(ActivatedRoom(p, r, id, block, pooled)) == PoolTerm(r) - pooled
  {
    hide BooksOk;
  }

  lemma ConcludedTerm(p: Protocol, r: Room, block: int)
    requires RoomOk(r) && r.status == Active && Judgeable(r)
    ensures PoolTerm(ConcludedRoom(p, r, block)) == PoolTerm(r) + Forfeited(p, r)
  {
    hide VerdictOf, AttemptsOk;
    VerdictNamesDefenders(p, r);
    FeesNonNegative(r);
  }

  lemma RefundedTerm(r: Room, a: Address)
    requires a in r.seats
    ensures PoolTerm(Refunded(r, a)) == PoolTerm(r)
  {
  }

  lemma SettledTerm(r: Room)
    requires RoomOk(r) && r.ending != NotEnded
    ensures PoolTerm(Settled(r)) == PoolTerm(r) + if r.ProtocolOwned() then CreatorDue(r) else 0
  {
    hide AttemptsOk;
    if r.ProtocolOwned() { DrawFeeIsZero(r); }
  }

  /** A draw pays no commission. */
  lemma DrawFeeIsZero(r: Room)
    requires BooksOk(r) && r.ProtocolOwned()
    ensures r.ledger.creatorFeeAccrued == 0
  {
    assert Commission(r) == 0;
  }

  lemma ClaimedTerm(r: Room, from: Address)
    requires from in r.seats && r.outcome.Some?
    ensures PoolTerm(Claimed(r, from)) == PoolTerm(r)
  {
  }

  lemma RevealedTerm(r: Room, revealed: LobbyReveal)
    ensures PoolTerm(r.(revealed := Some(revealed))) == PoolTerm(r)
  {
  }
}
