/** How one room may change over time: which facts about it are final, and once they are, stay. */
module RoomHistory {
  import opened Options
  import opened World
  import opened Interception
  import opened Epochs
  import opened EmulatorState
  import opened GameContract
  import opened Accounting

  /** A lobby only moves forward, and a finished one not at all. ACTIVE may end either way. */
  predicate MovesForward(from: LobbyStatus, to: LobbyStatus) {
    || to == from
    || from == Open
    || (from == Ready && to != Open)
    || (from == Active && to in {Resolved, Cancelled})
  }

  /** A seat of a finished room: only its payout flags move, and each at most once. */
  predicate SeatEvolves(x: Participant, y: Participant) {
    && y == x.(refunded := y.refunded, payoutState := y.payoutState)
    && (x.refunded ==> y.refunded)
    && (y.payoutState == x.payoutState || (x.payoutState == PayoutPending && y.payoutState == Paid))
  }

  /** What a finished room keeps: everything but a reveal, the two payout markers of its books, and its seats' payouts. */
  ghost predicate KeepsEnding(r: Room, t: Room) {
    && t == r.(seats := t.seats, ledger := t.ledger, revealed := t.revealed)
    && t.ledger == r.ledger.(rewardsClaimed := t.ledger.rewardsClaimed, creatorSettled := t.ledger.creatorSettled)
    && t.seats.Keys == r.seats.Keys
    && forall a :: a in r.seats ==> SeatEvolves(r.seats[a], t.seats[a])
  }

  /** The one change that may move a bounty: a draw leaving OPEN for play, its attack scheduled. Calling it off is not. */
  predicate Started(r: Room, t: Room) {
    r.ProtocolOwned() && r.status in {Open, Ready} && t.attack.Some?
  }

  /** An attack's status only moves forward; when it flies is never rescheduled. */
  predicate AttackKept(x: Attack, y: Attack) {
    y == x.(status := y.status) && (x.status == AttackResolved ==> y.status == AttackResolved)
    && (x.status == AttackLaunched ==> y.status != AttackPending)
  }

  /** What is being played is never replaced: the attack, its path, and the attempts in the order they were locked. */
  predicate PlayKept(r: Room, t: Room) {
    && (r.attack.Some? ==> t.attack.Some? && AttackKept(r.attack.value, t.attack.value))
    && (r.trajectory.Some? ==> t.trajectory == r.trajectory)
    && r.attempts <= t.attempts
  }

  ghost predicate Evolves(r: Room, t: Room) {
    && t.creator == r.creator && t.config == r.config.(prizePool := t.config.prizePool)
    && (r.currentEpochId.Some? ==> t.currentEpochId == r.currentEpochId)
    && MovesForward(r.status, t.status)
    && (r.status != Open ==> t.seats.Keys == r.seats.Keys)
    && (t.ledger.startPrizePool == r.ledger.startPrizePool || Started(r, t))
    && PlayKept(r, t)
    && (r.outcome.Some? ==> t.outcome == r.outcome)
    && (r.revealed.Some? ==> t.revealed == r.revealed)
    && (r.ledger.creatorSettled ==> t.ledger.creatorSettled)
    && (r.ending != NotEnded ==> KeepsEnding(r, t))
  }

  lemma EvolvesChains(r: Room, t: Room, u: Room)
    requires Evolves(r, t) && Evolves(t, u)
    ensures Evolves(r, u)
  {
    hide KeepsEnding;
    EndingChains(r, t, u);
  }

  lemma EndingChains(r: Room, t: Room, u: Room)
    ensures KeepsEnding(r, t) && KeepsEnding(t, u) ==> KeepsEnding(r, u)
    ensures KeepsEnding(r, t) ==> t.ending == r.ending
  {
  }

  lemma RunningEvolves(r: Room, t: Room)
    requires r.ending == NotEnded && r.outcome.None? && r.revealed.None? && !r.ledger.creatorSettled
    requires t.creator == r.creator && (r.currentEpochId.Some? ==> t.currentEpochId == r.currentEpochId)
    requires t.config == r.config.(prizePool := t.config.prizePool)
    requires r.status != Open ==> t.seats.Keys == r.seats.Keys
    requires MovesForward(r.status, t.status) && (t.ledger.startPrizePool == r.ledger.startPrizePool || Started(r, t))
    requires PlayKept(r, t)
    ensures Evolves(r, t)
  {
  }

  /** A room still running has nothing final about it, and before it starts nothing has been played. */
  lemma RunningIsOpenEnded(r: Room)
    requires RoomOk(r) && r.status in {Open, Ready, Active}
    ensures r.ending == NotEnded && r.outcome.None? && r.revealed.None? && !r.ledger.creatorSettled
    ensures r.status != Active ==> r.attack.None? && r.trajectory.None? && r.attempts == []
  {
    hide BooksOk, AttemptsOk;
  }

  /**
   * Starting schedules the one attack: it flies in the epoch the room was bound to, or, for a block deadline, in the first
   * epoch that starts at least the cushion after that deadline - whenever the start was noticed - and lands one flight later.
   */
  lemma StartingSchedules(p: Protocol, r: Room, id: Hash, block: int, pooled: int)
    requires p.Valid()
    ensures var t := ActivatedRoom(p, r, id, block, pooled);
            && t.attack.Some? && t.attack.value.status == AttackPending
            && t.currentEpochId == Some(t.attack.value.epochId)
            && (r.currentEpochId.Some? ==> t.attack.value.epochId == r.currentEpochId.value)
            && t.attack.value.launchBlock == GetEpochStartBlock(t.attack.value.epochId, p.limits.epochBlocks, p.genesisBlock)
            && t.attack.value.ImpactBlock() == t.attack.value.launchBlock + r.config.epochBlocks
            && (r.config.epochBlocks == p.limits.epochBlocks ==>
                  t.attack.value.ImpactBlock() == GetEpochStartBlock(t.attack.value.epochId + 1, p.limits.epochBlocks, p.genesisBlock))
            && (r.currentEpochId.None? && r.config.deadlineBlock > 0 ==>
                  r.config.deadlineBlock + MinGap(p.limits.epochBlocks) <= t.attack.value.launchBlock
                  <= r.config.deadlineBlock + MinGap(p.limits.epochBlocks) + p.limits.epochBlocks - 1)
            && t.seats == r.seats && t.attempts == r.attempts
  {
    StartStep(ActivatedRoom(p, r, id, block, pooled).attack.value.epochId, p.limits.epochBlocks, p.genesisBlock);
    if r.config.deadlineBlock > 0 {
      LaunchEpochIsLeast(r.config.deadlineBlock, p.limits.epochBlocks, p.genesisBlock, 0);
    }
  }

  /** A lobby minted with a block deadline is bound to that same epoch at once, so a late start cannot slide it. */
  lemma MintingBinds(p: Protocol, from: Address, config: LobbyConfig, value: int)
    requires p.Valid()
    ensures var t := MintedRoom(p, from, config, value);
            && (config.deadlineBlock > 0 ==>
                  t.currentEpochId.Some?
                  && config.deadlineBlock + MinGap(p.limits.epochBlocks)
                     <= GetEpochStartBlock(t.currentEpochId.value, p.limits.epochBlocks, p.genesisBlock)
                     <= config.deadlineBlock + MinGap(p.limits.epochBlocks) + p.limits.epochBlocks - 1)
            && (config.deadlineBlock <= 0 ==> t.currentEpochId.None?)
  {
    if config.deadlineBlock > 0 {
      LaunchEpochIsLeast(config.deadlineBlock, p.limits.epochBlocks, p.genesisBlock, 0);
    }
  }

  lemma RefundedEvolves(r: Room, a: Address)
    requires a in r.seats
    ensures Evolves(r, Refunded(r, a))
  {
  }

  lemma SettledEvolves(r: Room)
    ensures Evolves(r, Settled(r))
  {
  }

  lemma ClaimedEvolves(r: Room, from: Address)
    requires from in r.seats && r.outcome.Some? && r.seats[from].payoutState == PayoutPending
    ensures Evolves(r, Claimed(r, from))
  {
  }

  lemma RevealedEvolves(r: Room, revealed: LobbyReveal)
    requires r.revealed.None?
    ensures Evolves(r, r.(revealed := Some(revealed)))
  {
  }
}
