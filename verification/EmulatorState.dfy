/** The emulator's game-contract state: accounts, rooms and their ledgers, the draw pool. Money is in wei. */
module EmulatorState {
  import opened Options
  import opened World
  import opened Interception

  /** A transaction hash; hashes come from a counter, one per write, and are never reused. */
  type Hash = nat

  const PROTOCOL_ESCROW_ADDRESS: Address := 0x41454758
  const DEFAULT_EMULATOR_BALANCE := 100_000_000_000_000_000_000
  const PROBE_DELAY_BLOCKS := 3
  const MAX_LOBBY_NAME_BYTES := 48

  datatype ProtocolLimits = ProtocolLimits(
    minPlayers: int, maxPlayers: int, minEntryPrice: int, maxEntryPrice: int,
    minRegistrationDurationMs: int, maxRegistrationDurationMs: int,
    minStartPrizePool: int, maxCreatorFeePercent: int,
    freeReconProbes: int, maxReconProbes: int, reconProbePrice: int, joinFee: int,
    epochBlocks: nat, sectorSpanKm: real, interceptionRadiusSectors: real, defenseSpeedKmPerBlock: real,
    globalDefenseEpochInterval: int, globalDefenseJoinWindowMs: int)

  /** What one chain is configured with. `trajectoryOf` stands for the seeded draw of an attack's path. */
  datatype Protocol = Protocol(
    limits: ProtocolLimits, genesisBlock: int, blockTimeMs: int, grid: Grid, sealingKey: nat,
    trajectoryOf: (Hash, int, int) -> Trajectory)
  {
    /** Prices are not negative and epochs are not empty. */
    ghost predicate Valid() {
      && limits.epochBlocks > 0 && blockTimeMs > 0
      && limits.minEntryPrice >= 0 && limits.minStartPrizePool >= 0
      && limits.reconProbePrice >= 0 && limits.joinFee >= 0
    }
  }

  datatype LobbyConfig = LobbyConfig(
    nameBytes: nat, minPlayers: int, maxPlayers: int, entryPrice: int, deadline: int, deadlineBlock: int,
    prizePool: int, creatorFeePercent: int, protocolJoinFee: int,
    freeProbes: int, probePrice: int, maxProbes: int,
    epochBlocks: nat, sectorSpanKm: real, interceptionRadiusSectors: real, defenseSpeedKmPerBlock: real)

  datatype LobbyLedger = LobbyLedger(
    startPrizePool: int, entryFeesCollected: int, probeFeesCollected: int, creatorFeeAccrued: int,
    protocolFeeAccrued: int, rewardPool: int, rewardsClaimed: int, creatorSettled: bool)

  function CreateLobbyLedger(startPrizePool: int): LobbyLedger {
    LobbyLedger(startPrizePool, 0, 0, 0, 0, startPrizePool, 0, false)
  }

  datatype PayoutState = NoPayout | PayoutPending | Paid

  datatype Participant = Participant(
    freeDronesRemaining: int, purchasedDrones: int, actionCount: nat,
    probeIds: seq<Hash>, defenseAttemptIds: seq<Hash>, payoutState: PayoutState,
    paidIn: int, probesPaid: int, refunded: bool, lastProbeBlock: int)

  datatype AttackStatus = AttackPending | AttackLaunched | AttackResolved

  /** The public half of a room's one attack; an attack id is the room and the epoch. */
  datatype Attack = Attack(epochId: int, launchBlock: int, flightDurationBlocks: nat, status: AttackStatus) {
    function ImpactBlock(): int { launchBlock + flightDurationBlocks }
  }

  datatype AttackOutcome = AttackOutcome(attackId: int, resolution: Resolution, rewardPerWinner: int, resolvedAtBlock: int) {
    predicate Intercepted() { resolution.Stopped? }
    function Winners(): seq<Address> { if resolution.Stopped? then resolution.winners else [] }
  }

  datatype LobbyReveal = LobbyReveal(attackId: int, trajectory: Trajectory, revealedBy: Address, revealedAtBlock: int)

  datatype LobbyStatus = Open | Ready | Active | Resolved | Cancelled

  datatype LobbyEnding = NotEnded | Unplayed | Completed | CalledOff

  /** A stored attempt carries no coordinate; the point is filed under the attempt's id. */
  datatype StoredAttempt = StoredAttempt(id: Hash, participant: Address, submittedAtBlock: int)

  /**
   * One operation: the lobby, its ledger, its participants, its attack and everything sealed for it.
   * `overpaid` is what the mint transaction carried beyond the creation cost.
   */
  datatype Room = Room(
    creator: Address, status: LobbyStatus, ending: LobbyEnding, config: LobbyConfig,
    participantCount: int, participantAddresses: seq<Address>, currentEpochId: Option<int>,
    attack: Option<Attack>, outcome: Option<AttackOutcome>, revealed: Option<LobbyReveal>,
    ledger: LobbyLedger, seats: map<Address, Participant>,
    trajectory: Option<Trajectory>, attempts: seq<StoredAttempt>, points: map<Hash, DefensePoint>,
    overpaid: int)
  {
    predicate ProtocolOwned() { creator == PROTOCOL_ESCROW_ADDRESS }
  }

  /**
   * `cannotPay` records that a payout met an escrow balance too small for it; the source throws there.
   */
  datatype State = State(
    block: int, txCounter: nat, accounts: map<Address, int>, pool: int,
    draws: map<int, Hash>, rooms: map<Hash, Room>, cannotPay: bool)

  function CreateEmulatorState(initialBlock: int): State {
    State(initialBlock, 0, map[], 0, map[], map[], false)
  }

  function Put(s: State, id: Hash, r: Room): State {
    s.(rooms := s.rooms[id := r])
  }

  // --------------------------------------------------------------- accounts

  /** The protocol starts with nothing; every player account with the default balance. */
  function OpeningBalance(a: Address): int {
    if a == PROTOCOL_ESCROW_ADDRESS then 0 else DEFAULT_EMULATOR_BALANCE
  }

  function BalanceOf(accounts: map<Address, int>, a: Address): int {
    if a in accounts then accounts[a] else OpeningBalance(a)
  }

  function Credit(accounts: map<Address, int>, a: Address, amount: int): map<Address, int> {
    accounts[a := BalanceOf(accounts, a) + amount]
  }

  function EscrowBalance(s: State): int { BalanceOf(s.accounts, PROTOCOL_ESCROW_ADDRESS) }

  /** Money into the protocol; None is the insufficient-balance error. */
  function Escrow(s: State, from: Address, amount: int): Option<State> {
    if BalanceOf(s.accounts, from) < amount then None
    else Some(s.(accounts := Credit(Credit(s.accounts, from, -amount), PROTOCOL_ESCROW_ADDRESS, amount)))
  }

  /** Money out of the protocol. */
  function PayOut(s: State, to: Address, amount: int): State {
    if amount <= 0 then s
    else if EscrowBalance(s) < amount then s.(cannotPay := true)
    else s.(accounts := Credit(Credit(s.accounts, PROTOCOL_ESCROW_ADDRESS, -amount), to, amount))
  }

  // -------------------------------------------------------------- economics

  function CalculateAuthorCommission(entryPrice: int, creatorFeePercent: int): int {
    (entryPrice * creatorFeePercent) / 100
  }

  function CalculateParticipantCost(entryPrice: int, creatorFeePercent: int, protocolOwned: bool): int {
    entryPrice + if protocolOwned then 0 else CalculateAuthorCommission(entryPrice, creatorFeePercent)
  }

  /** An equal split in whole wei; what it leaves over is the dust. */
  function CalculateRewardPerWinner(distributable: int, winnerCount: nat): int {
    if winnerCount == 0 then 0 else distributable / winnerCount
  }

  function Commission(r: Room): int {
    if r.ProtocolOwned() then 0 else CalculateAuthorCommission(r.config.entryPrice, r.config.creatorFeePercent)
  }

  function JoinCost(r: Room): int {
    CalculateParticipantCost(r.config.entryPrice, r.config.creatorFeePercent, r.ProtocolOwned())
  }

  // ------------------------------------------------------------ lobby rules

  /** What the one path that mints a lobby demands of a config. */
  predicate IsLegalConfig(c: LobbyConfig, nowMs: int, limits: ProtocolLimits) {
    && 0 < c.nameBytes <= MAX_LOBBY_NAME_BYTES
    && limits.minPlayers <= c.minPlayers <= limits.maxPlayers
    && c.minPlayers <= c.maxPlayers <= limits.maxPlayers
    && limits.minEntryPrice <= c.entryPrice <= limits.maxEntryPrice
    && nowMs < c.deadline
    && limits.minRegistrationDurationMs <= c.deadline - nowMs <= limits.maxRegistrationDurationMs
    && limits.minStartPrizePool <= c.prizePool
    && 0 <= c.creatorFeePercent <= limits.maxCreatorFeePercent
    && c.freeProbes == limits.freeReconProbes && c.maxProbes == limits.maxReconProbes
    && c.probePrice == limits.reconProbePrice && c.protocolJoinFee == limits.joinFee
    && c.epochBlocks == limits.epochBlocks && c.sectorSpanKm == limits.sectorSpanKm
    && c.interceptionRadiusSectors == limits.interceptionRadiusSectors
    && c.defenseSpeedKmPerBlock == limits.defenseSpeedKmPerBlock
  }

  /** Applications close on a block when the lobby names one, and on the clock otherwise. */
  predicate DeadlinePassed(c: LobbyConfig, block: int, nowMs: int) {
    if c.deadlineBlock > 0 then block >= c.deadlineBlock else nowMs >= c.deadline
  }

  predicate CanJoinLobby(r: Room, block: int, nowMs: int) {
    r.status == Open && !DeadlinePassed(r.config, block, nowMs) && r.participantCount < r.config.maxPlayers
  }
}
