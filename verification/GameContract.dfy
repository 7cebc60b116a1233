/** The game contract's transitions, as functions of the state: lazy settlement, the reads' side effects, every write. */
module GameContract {
  import opened Options
  import opened Numbers
  import opened World
  import opened Interception
  import opened Epochs
  import opened GlobalDefense
  import opened EmulatorState

  datatype Refusal =
    | InvalidConfig | ValueTooLow | InsufficientBalance | LobbyNotFound | NotOpenForJoining | AlreadyStarted
    | NotJoined | HasEnded | ReconClosed | MaximumProbes | BadEnvelope | NoProbesLeft | ProbeInFlight
    | AttackNotFound | NotLaunched | AttackOver | OutsideGrid | OutsideSector | DefenseLocked
    | AlreadyRevealed | NotResolved | WrongAttack | NoDefense | NotIntercepted | NotAWinner | AlreadyClaimed
    | NothingToClaim | NothingToRefund | WasPlayed | NotTheCreator | AlreadySettled | NothingToSettle
    | DrawsDisabled | DrawAlreadyOpen | PoolEmpty | DrawPassed | DrawNotOpenYet

  datatype Tx = Confirmed(state: State) | Failed(state: State, why: Refusal)

  // ------------------------------------------------------- lazy settlement

  function RemoveAll(addresses: seq<Address>, a: Address): seq<Address> {
    if addresses == [] then []
    else if addresses[0] == a then RemoveAll(addresses[1..], a)
    else [addresses[0]] + RemoveAll(addresses[1..], a)
  }

  function Refunded(r: Room, a: Address): Room
    requires a in r.seats
  {
    r.(seats := r.seats[a := r.seats[a].(refunded := true)])
  }

  function Settled(r: Room): Room {
    r.(ledger := r.ledger.(creatorSettled := true))
  }

  /** One defender's refund: nothing for a seat that is gone, refunded or paid nothing. */
  function RefundSeat(s: State, id: Hash, a: Address): (t: State)
    requires id in s.rooms
    ensures t.rooms.Keys == s.rooms.Keys
  {
    var r := s.rooms[id];
    if a !in r.seats || r.seats[a].refunded || r.seats[a].paidIn <= 0 then s
    else PayOut(Put(s, id, Refunded(r, a)), a, r.seats[a].paidIn)
  }

  function RefundSeats(s: State, id: Hash, addresses: seq<Address>): (t: State)
    requires id in s.rooms
    ensures t.rooms.Keys == s.rooms.Keys
    decreases |addresses|
  {
    if addresses == [] then s
    else RefundSeats(RefundSeat(s, id, addresses[0]), id, addresses[1..])
  }

  /** The bounty goes back to whoever put it up: the creator, or the draw pool. */
  function ReturnBounty(s: State, id: Hash): (t: State)
    requires id in s.rooms
    ensures t.rooms.Keys == s.rooms.Keys
  {
    var r := s.rooms[id];
    if r.ledger.creatorSettled then s
    else
      var bounty := r.ledger.startPrizePool;
      var settled := Put(s, id, Settled(r));
      if bounty <= 0 then settled
      else if r.ProtocolOwned() then settled.(pool := settled.pool + bounty)
      else PayOut(settled, r.creator, bounty)
  }

  function PayoutUnplayed(s: State, id: Hash): (t: State)
    requires id in s.rooms
    ensures t.rooms.Keys == s.rooms.Keys
  {
    ReturnBounty(RefundSeats(s, id, s.rooms[id].participantAddresses), id)
  }

  /** OPEN -> READY or CANCELLED, once the deadline has passed. */
  function CloseApplications(s: State, id: Hash, nowMs: int): (t: State)
    requires id in s.rooms
    ensures t.rooms.Keys == s.rooms.Keys
  {
    var r := s.rooms[id];
    if r.status != Open || !DeadlinePassed(r.config, s.block, nowMs) then s
    else if r.participantCount >= r.config.minPlayers then Put(s, id, r.(status := Ready))
    else PayoutUnplayed(Put(s, id, r.(status := Cancelled, ending := Unplayed)), id)
  }

  function LaunchEpochFor(p: Protocol, r: Room, block: int): int
    requires p.limits.epochBlocks > 0
  {
    LaunchEpochOf(if r.config.deadlineBlock > 0 then r.config.deadlineBlock else block, p.limits.epochBlocks, p.genesisBlock)
  }

  function ScheduledAttack(p: Protocol, r: Room, epochId: int): Attack {
    Attack(epochId, GetEpochStartBlock(epochId, p.limits.epochBlocks, p.genesisBlock), r.config.epochBlocks, AttackPending)
  }

  /** What of the draw pool enters a room that starts: all of it for a draw, nothing for anyone else. */
  function Pooled(s: State, r: Room): int {
    if r.ProtocolOwned() && s.pool > 0 then s.pool else 0
  }

  /** A started room: entry fees in the reward, the attack scheduled, its path drawn. */
  function ActivatedRoom(p: Protocol, r: Room, id: Hash, block: int, pooled: int): Room
    requires p.limits.epochBlocks > 0
  {
    var epochId := if r.currentEpochId.Some? then r.currentEpochId.value else LaunchEpochFor(p, r, block);
    var start := r.ledger.startPrizePool + pooled;
    r.(
      status := Active, currentEpochId := Some(epochId),
      config := if pooled > 0 then r.config.(prizePool := start) else r.config,
      ledger := r.ledger.(startPrizePool := start,
                          rewardPool := r.ledger.rewardPool + pooled + r.ledger.entryFeesCollected),
      attack := Some(ScheduledAttack(p, r, epochId)),
      trajectory := Some(p.trajectoryOf(id, epochId, block)))
  }

  /** READY -> ACTIVE. */
  function Activate(p: Protocol, s: State, id: Hash): (t: State)
    requires p.limits.epochBlocks > 0 && id in s.rooms
    ensures t.rooms.Keys == s.rooms.Keys
  {
    var pooled := Pooled(s, s.rooms[id]);
    Put(s, id, ActivatedRoom(p, s.rooms[id], id, s.block, pooled)).(pool := s.pool - pooled)
  }

  /** A room's attempts as resolution sees them: every stored point opened. */
  function OpenedAttempts(r: Room): seq<Attempt> {
    seq(|r.attempts|, i requires 0 <= i < |r.attempts| =>
      Attempt(r.attempts[i].id, r.attempts[i].participant,
              if r.attempts[i].id in r.points then Some(r.points[r.attempts[i].id]) else None,
              r.attempts[i].submittedAtBlock))
  }

  function SceneOf(p: Protocol, r: Room): Scene
    requires r.attack.Some? && r.trajectory.Some?
  {
    Scene(Flight(r.attack.value.launchBlock, r.attack.value.flightDurationBlocks), r.trajectory.value,
          Field(p.grid, r.config.sectorSpanKm), r.config.interceptionRadiusSectors * r.config.sectorSpanKm)
  }

  predicate WasActedIn(r: Room) {
    exists a :: a in r.seats && r.seats[a].actionCount > 0
  }

  function MarkWinners(seats: map<Address, Participant>, winners: seq<Address>): map<Address, Participant> {
    map a | a in seats :: if a in winners then seats[a].(payoutState := PayoutPending) else seats[a]
  }

  predicate Judgeable(r: Room) { r.attack.Some? && r.trajectory.Some? }

  function VerdictOf(p: Protocol, r: Room): Resolution
    requires Judgeable(r)
  {
    ResolveAttack(OpenedAttempts(r), SceneOf(p, r))
  }

  /** A missed round's reward pool, forfeited to the draw pool; a round nobody acted in forfeits nothing. */
  function Forfeited(p: Protocol, r: Room): int
    requires Judgeable(r)
  {
    if WasActedIn(r) && VerdictOf(p, r).NotStopped? && r.ledger.rewardPool > 0 then r.ledger.rewardPool else 0
  }

  /** The verdict written down: the outcome, the winners' entitlement, and which ending this was. */
  function ConcludedRoom(p: Protocol, r: Room, block: int): Room
    requires Judgeable(r)
  {
    var resolution := VerdictOf(p, r);
    var share := if resolution.Stopped? then CalculateRewardPerWinner(r.ledger.rewardPool, |resolution.winners|) else 0;
    var judged := r.(
      attack := Some(r.attack.value.(status := AttackResolved)),
      outcome := Some(AttackOutcome(r.attack.value.epochId, resolution, share, block)),
      seats := MarkWinners(r.seats, Winners(resolution)));
    if !WasActedIn(r) then judged.(ending := Unplayed, status := Cancelled)
    else judged.(ending := Completed, status := Resolved,
                 ledger := if Forfeited(p, r) > 0 then r.ledger.(rewardPool := 0) else r.ledger)
  }

  function Conclude(p: Protocol, s: State, id: Hash): (t: State)
    requires id in s.rooms && Judgeable(s.rooms[id])
    ensures t.rooms.Keys == s.rooms.Keys
  {
    Put(s, id, ConcludedRoom(p, s.rooms[id], s.block)).(pool := s.pool + Forfeited(p, s.rooms[id]))
  }

  /** The end of an operation. A room without its sealed path cannot be judged. */
  function ResolveRoom(p: Protocol, s: State, id: Hash): (t: State)
    requires p.limits.epochBlocks > 0 && id in s.rooms && s.rooms[id].attack.Some?
    ensures t.rooms.Keys == s.rooms.Keys
  {
    if s.rooms[id].trajectory.None? then s
    else
      var concluded := Conclude(p, s, id);
      if Forfeited(p, s.rooms[id]) > 0 then MaybeTopUpGlobalDefense(p, concluded) else concluded
  }

  /** PENDING -> LAUNCHED at the launch block, LAUNCHED -> RESOLVED at impact. */
  function AdvanceAttack(p: Protocol, s: State, id: Hash): (t: State)
    requires p.limits.epochBlocks > 0 && id in s.rooms
    ensures t.rooms.Keys == s.rooms.Keys
  {
    var r := s.rooms[id];
    if r.attack.None? || r.attack.value.status == AttackResolved then s
    else
      var launched := if r.attack.value.status == AttackPending && s.block >= r.attack.value.launchBlock
                      then Put(s, id, r.(attack := Some(r.attack.value.(status := AttackLaunched)))) else s;
      if launched.rooms[id].attack.value.status == AttackLaunched && s.block >= r.attack.value.ImpactBlock()
      then ResolveRoom(p, launched, id) else launched
  }

  /** Brings one room up to date with the current block. */
  function SettleLobby(p: Protocol, s: State, id: Hash, nowMs: int): (t: State)
    requires p.limits.epochBlocks > 0
    ensures t.rooms.Keys == s.rooms.Keys
  {
    if id !in s.rooms then s
    else
      var closed := CloseApplications(s, id, nowMs);
      var started := if closed.rooms[id].status == Ready then Activate(p, closed, id) else closed;
      if started.rooms[id].status == Active then AdvanceAttack(p, started, id) else started
  }

  // ------------------------------------------------------- Global Defense

  function ProtocolEpoch(p: Protocol, block: int): int
    requires p.limits.epochBlocks > 0
  {
    GetEpochFromBlock(block, p.limits.epochBlocks, p.genesisBlock)
  }

  function DrawTerms(p: Protocol): Terms {
    Terms(p.limits.globalDefenseEpochInterval, p.limits.epochBlocks, p.genesisBlock, p.blockTimeMs,
          p.limits.globalDefenseJoinWindowMs)
  }

  function UpcomingDraw(p: Protocol, block: int): Schedule
    requires p.limits.epochBlocks > 0 && p.limits.globalDefenseEpochInterval > 0
  {
    DrawSchedule(DrawTerms(p), ProtocolEpoch(p, block))
  }

  /** Folds the idle pool into a minted draw that has not launched; an OPEN draw is left alone. */
  function MaybeTopUpGlobalDefense(p: Protocol, s: State): (t: State)
    requires p.limits.epochBlocks > 0
    ensures t.rooms.Keys == s.rooms.Keys
  {
    if s.pool <= 0 || p.limits.globalDefenseEpochInterval <= 0 then s
    else
      var epochId := UpcomingDraw(p, s.block).nextEpoch;
      if epochId !in s.draws || s.draws[epochId] !in s.rooms then s
      else
        var id := s.draws[epochId];
        var r := s.rooms[id];
        if r.status in {Active, Resolved, Cancelled} || (r.ProtocolOwned() && r.status == Open) then s
        else
          var start := r.ledger.startPrizePool + s.pool;
          Put(s, id, r.(ledger := r.ledger.(rewardPool := r.ledger.rewardPool + s.pool, startPrizePool := start),
                        config := r.config.(prizePool := start))).(pool := 0)
  }

  predicate IsGlobalDefenseDue(p: Protocol, s: State)
    requires p.limits.epochBlocks > 0
  {
    && p.limits.globalDefenseEpochInterval > 0 && s.pool > 0
    && UpcomingDraw(p, s.block).nextEpoch !in s.draws
    && UpcomingDraw(p, s.block).openFromBlock <= s.block < UpcomingDraw(p, s.block).deadlineBlock
  }

  function DrawRoom(p: Protocol, schedule: Schedule, block: int, nowMs: int): Room {
    Room(PROTOCOL_ESCROW_ADDRESS, Open, NotEnded,
         LobbyConfig(14, p.limits.minPlayers, p.limits.maxPlayers, 0,
                     nowMs + Max(1, schedule.deadlineBlock - block) * p.blockTimeMs, schedule.deadlineBlock,
                     0, 0, p.limits.joinFee,
                     p.limits.freeReconProbes, p.limits.reconProbePrice, p.limits.maxReconProbes,
                     p.limits.epochBlocks, p.limits.sectorSpanKm, p.limits.interceptionRadiusSectors,
                     p.limits.defenseSpeedKmPerBlock),
         0, [], Some(schedule.nextEpoch), None, None, None, CreateLobbyLedger(0), map[], None, [], map[], 0)
  }

  /** Mints the protocol's own draw; the pool stays where it is until the round starts. */
  function OpenGlobalDefense(p: Protocol, s: State, nowMs: int, hash: Hash): Tx
    requires p.limits.epochBlocks > 0
  {
    if p.limits.globalDefenseEpochInterval <= 0 then Failed(s, DrawsDisabled)
    else
      var schedule := UpcomingDraw(p, s.block);
      if schedule.nextEpoch in s.draws then Failed(s, DrawAlreadyOpen)
      else if s.pool <= 0 then Failed(s, PoolEmpty)
      else if s.block >= schedule.deadlineBlock then Failed(s, DrawPassed)
      else if s.block < schedule.openFromBlock then Failed(s, DrawNotOpenYet)
      else Confirmed(Put(s, hash, DrawRoom(p, schedule, s.block, nowMs)).(draws := s.draws[schedule.nextEpoch := hash]))
  }

  function NextHash(s: State): State { s.(txCounter := s.txCounter + 1) }

  function MaybeOpenGlobalDefense(p: Protocol, s: State, nowMs: int): State
    requires p.limits.epochBlocks > 0
  {
    if !IsGlobalDefenseDue(p, s) then s
    else OpenGlobalDefense(p, NextHash(s), nowMs, s.txCounter + 1).state
  }

  /** An unplayed draw returns its bounty to the pool. */
  function SettleProtocolDraw(s: State, id: Hash): State {
    if id !in s.rooms then s
    else
      var r := s.rooms[id];
      if !r.ProtocolOwned() || (r.ending != Unplayed && r.ending != CalledOff) || r.ledger.creatorSettled
         || r.ledger.startPrizePool <= 0 then s
      else Put(s, id, Settled(r)).(pool := s.pool + r.ledger.startPrizePool)
  }

  /** Rooms are visited in the order they were minted. */
  function SettleProtocolDraws(s: State, count: nat): State {
    if count == 0 then s else SettleProtocolDraw(SettleProtocolDraws(s, count - 1), count)
  }

  function SettleRooms(p: Protocol, s: State, count: nat, nowMs: int): State
    requires p.limits.epochBlocks > 0
  {
    if count == 0 then s else SettleLobby(p, SettleRooms(p, s, count - 1, nowMs), count, nowMs)
  }

  /** What reading the statistics or the draw does first. */
  function SettleEverything(p: Protocol, s: State, nowMs: int): State
    requires p.limits.epochBlocks > 0
  {
    MaybeOpenGlobalDefense(p,
      MaybeTopUpGlobalDefense(p, SettleProtocolDraws(SettleRooms(p, s, s.txCounter, nowMs), s.txCounter)), nowMs)
  }

  function MineBlock(p: Protocol, s: State, nowMs: int): State
    requires p.limits.epochBlocks > 0
  {
    MaybeOpenGlobalDefense(p, MaybeTopUpGlobalDefense(p, s.(block := s.block + 1)), nowMs)
  }

  // ---------------------------------------------------------------- writes

  function ApplyCreateLobby(p: Protocol, s: State, from: Address, config: LobbyConfig, value: int, nowMs: int,
                            hash: Hash): Tx
    requires p.limits.epochBlocks > 0
  {
    if !IsLegalConfig(config, nowMs, p.limits) then Failed(s, InvalidConfig)
    else if value < config.prizePool + config.protocolJoinFee then Failed(s, ValueTooLow)
    else
      var paid := Escrow(s, from, value);
      if paid.None? then Failed(s, InsufficientBalance)
      else
        Confirmed(Put(paid.value, hash, MintedRoom(p, from, config, value)))
  }

  function MintedRoom(p: Protocol, from: Address, config: LobbyConfig, value: int): Room
    requires p.limits.epochBlocks > 0
  {
    Room(from, Open, NotEnded, config, 0, [],
         if config.deadlineBlock > 0
         then Some(LaunchEpochOf(config.deadlineBlock, p.limits.epochBlocks, p.genesisBlock)) else None,
         None, None, None, CreateLobbyLedger(config.prizePool).(protocolFeeAccrued := config.protocolJoinFee),
         map[], None, [], map[], value - (config.prizePool + config.protocolJoinFee))
  }

  function NewParticipant(r: Room): Participant {
    Participant(r.config.freeProbes, 0, 0, [], [], NoPayout, JoinCost(r), 0, false, 0)
  }

  function Joined(r: Room, from: Address): Room {
    r.(ledger := r.ledger.(entryFeesCollected := r.ledger.entryFeesCollected + r.config.entryPrice,
                           creatorFeeAccrued := r.ledger.creatorFeeAccrued + Commission(r)),
       seats := r.seats[from := NewParticipant(r)],
       participantCount := r.participantCount + 1,
       participantAddresses := r.participantAddresses + [from])
  }

  /** Joining does not look for an existing seat: a second join replaces the first one's record. */
  function ApplyJoinLobby(s: State, from: Address, id: Hash, value: int, nowMs: int): Tx {
    if id !in s.rooms then Failed(s, LobbyNotFound)
    else
      var r := s.rooms[id];
      if !CanJoinLobby(r, s.block, nowMs) then Failed(s, NotOpenForJoining)
      else if value < JoinCost(r) then Failed(s, ValueTooLow)
      else
        var paid := Escrow(s, from, JoinCost(r));
        if paid.None? then Failed(s, InsufficientBalance)
        else Confirmed(Put(paid.value, id, Joined(r, from)))
  }

  function Left(r: Room, from: Address): Room
    requires from in r.seats
  {
    var seat := r.seats[from];
    var commissionPaid := Max(0, seat.paidIn - (seat.probesPaid + r.config.entryPrice));
    r.(ledger := r.ledger.(entryFeesCollected := r.ledger.entryFeesCollected - r.config.entryPrice,
                           creatorFeeAccrued := r.ledger.creatorFeeAccrued - commissionPaid,
                           probeFeesCollected := r.ledger.probeFeesCollected - seat.probesPaid,
                           rewardPool := r.ledger.rewardPool - seat.probesPaid),
       seats := r.seats - {from},
       participantCount := Max(0, r.participantCount - 1),
       participantAddresses := RemoveAll(r.participantAddresses, from))
  }

  function ApplyLeaveLobby(p: Protocol, s0: State, from: Address, id: Hash, nowMs: int): Tx
    requires p.limits.epochBlocks > 0
  {
    if id !in s0.rooms then Failed(s0, LobbyNotFound)
    else
      var s := SettleLobby(p, s0, id, nowMs);
      var r := s.rooms[id];
      if r.status != Open then Failed(s, AlreadyStarted)
      else if from !in r.seats then Failed(s, NotJoined)
      else
        Confirmed(PayOut(Put(s, id, Left(r, from)), from, r.seats[from].paidIn))
  }

  function Bought(r: Room, from: Address): Room
    requires from in r.seats
  {
    var seat := r.seats[from];
    r.(seats := r.seats[from := seat.(purchasedDrones := seat.purchasedDrones + 1,
                                      paidIn := seat.paidIn + r.config.probePrice,
                                      probesPaid := seat.probesPaid + r.config.probePrice)],
       ledger := r.ledger.(probeFeesCollected := r.ledger.probeFeesCollected + r.config.probePrice,
                           rewardPool := r.ledger.rewardPool + r.config.probePrice))
  }

  /** A purchase in a room that has been settled up to this block. */
  function TakePurchase(s: State, from: Address, id: Hash, value: int): Tx
    requires id in s.rooms
  {
    var r := s.rooms[id];
    if r.status != Open && r.status != Ready && r.status != Active then Failed(s, HasEnded)
    else if from !in r.seats then Failed(s, NotJoined)
    else
      var seat := r.seats[from];
      if seat.defenseAttemptIds != [] then Failed(s, ReconClosed)
      else if r.config.freeProbes + seat.purchasedDrones >= r.config.maxProbes then Failed(s, MaximumProbes)
      else if value < r.config.probePrice then Failed(s, ValueTooLow)
      else
        var paid := Escrow(s, from, r.config.probePrice);
        if paid.None? then Failed(s, InsufficientBalance)
        else Confirmed(Put(paid.value, id, Bought(r, from)))
  }

  function ApplyBuyDrone(p: Protocol, s: State, from: Address, id: Hash, value: int, nowMs: int): Tx
    requires p.limits.epochBlocks > 0
  {
    if id !in s.rooms then Failed(s, LobbyNotFound)
    else TakePurchase(SettleLobby(p, s, id, nowMs), from, id, value)
  }

  datatype PrivateActionRequest =
    | ReconProbe(attackId: int)
    | DefenseSubmit(attackId: int, defensePoint: DefensePoint)

  /** A request sealed under some key; only the protocol's own key opens it. */
  datatype SealedRequest = SealedRequest(key: nat, request: PrivateActionRequest)

  /** The previous probe still blocks another probe, and a Defense. */
  predicate ProbeStillInFlight(seat: Participant, block: int) {
    seat.lastProbeBlock > 0 && block < seat.lastProbeBlock + PROBE_DELAY_BLOCKS
  }

  function FindAttack(r: Room, attackId: int): Option<Attack> {
    if r.attack.Some? && r.attack.value.epochId == attackId then r.attack else None
  }

  /** Why a probe is refused, or None. */
  function ProbeRefusal(r: Room, from: Address, attackId: int, block: int): Option<Refusal> {
    if from !in r.seats then Some(NotJoined)
    else
      var seat := r.seats[from];
      if |seat.probeIds| >= r.config.freeProbes + seat.purchasedDrones then Some(NoProbesLeft)
      else if ProbeStillInFlight(seat, block) then Some(ProbeInFlight)
      else if seat.defenseAttemptIds != [] then Some(ReconClosed)
      else if FindAttack(r, attackId).None? then Some(AttackNotFound)
      else if r.attack.value.status == AttackPending then Some(NotLaunched)
      else if r.attack.value.status == AttackResolved then Some(AttackOver)
      else if r.trajectory.None? then Some(AttackNotFound)
      else None
  }

  /** Why a Defense is refused, or None. */
  function DefenseRefusal(p: Protocol, r: Room, from: Address, attackId: int, point: DefensePoint,
                          block: int): Option<Refusal> {
    if !IsValidSector(point.sector, p.grid) then Some(OutsideGrid)
    else if !IsInsideSector(point) then Some(OutsideSector)
    else if from !in r.seats then Some(NotJoined)
    else
      var seat := r.seats[from];
      if seat.defenseAttemptIds != [] then Some(DefenseLocked)
      else if ProbeStillInFlight(seat, block) then Some(ProbeInFlight)
      else if FindAttack(r, attackId).None? then Some(AttackNotFound)
      else if r.attack.value.status == AttackPending then Some(NotLaunched)
      else if r.attack.value.status == AttackResolved then Some(AttackOver)
      else None
  }

  function Probed(r: Room, from: Address, block: int, hash: Hash): Room
    requires from in r.seats
  {
    var seat := r.seats[from];
    r.(seats := r.seats[from := seat.(probeIds := seat.probeIds + [hash], lastProbeBlock := block,
                                      freeDronesRemaining := Max(0, r.config.freeProbes - (|seat.probeIds| + 1)),
                                      actionCount := seat.actionCount + 1)])
  }

  function Defended(r: Room, from: Address, point: DefensePoint, block: int, hash: Hash): Room
    requires from in r.seats
  {
    var seat := r.seats[from];
    r.(seats := r.seats[from := seat.(defenseAttemptIds := seat.defenseAttemptIds + [hash],
                                      actionCount := seat.actionCount + 1)],
       attempts := r.attempts + [StoredAttempt(hash, from, block)],
       points := r.points[hash := point])
  }

  function ApplyPrivateAction(p: Protocol, s0: State, from: Address, id: Hash, envelope: SealedRequest, nowMs: int,
                              hash: Hash): Tx
    requires p.limits.epochBlocks > 0
  {
    if id !in s0.rooms then Failed(s0, LobbyNotFound)
    else
      var s := SettleLobby(p, s0, id, nowMs);
      if envelope.key != p.sealingKey then Failed(s, BadEnvelope)
      else
        var r := s.rooms[id];
        match envelope.request
        case ReconProbe(attackId) =>
          var refusal := ProbeRefusal(r, from, attackId, s.block);
          if refusal.Some? then Failed(s, refusal.value) else Confirmed(Put(s, id, Probed(r, from, s.block, hash)))
        case DefenseSubmit(attackId, point) =>
          var refusal := DefenseRefusal(p, r, from, attackId, point, s.block);
          if refusal.Some? then Failed(s, refusal.value) else Confirmed(Put(s, id, Defended(r, from, point, s.block, hash)))
  }

  function ApplyRevealAttack(p: Protocol, s0: State, from: Address, id: Hash, attackId: int, nowMs: int): Tx
    requires p.limits.epochBlocks > 0
  {
    if id !in s0.rooms then Failed(s0, LobbyNotFound)
    else
      var s := SettleLobby(p, s0, id, nowMs);
      var r := s.rooms[id];
      if r.revealed.Some? then Failed(s, AlreadyRevealed)
      else if FindAttack(r, attackId).None? then Failed(s, AttackNotFound)
      else if r.attack.value.status != AttackResolved then Failed(s, NotResolved)
      else if r.outcome.None? || r.outcome.value.attackId != attackId then Failed(s, WrongAttack)
      else if r.trajectory.None? then Failed(s, AttackNotFound)
      else Confirmed(Put(s, id, r.(revealed := Some(LobbyReveal(attackId, r.trajectory.value, from, s.block)))))
  }

  /** The Creator Fee on a round that ran, plus the dust a tie could not divide. */
  function CompletedCreatorDue(r: Room): int {
    var intercepted := r.outcome.Some? && r.outcome.value.Intercepted();
    var paidToWinners := if intercepted then r.outcome.value.rewardPerWinner * |r.outcome.value.Winners()| else 0;
    r.ledger.creatorFeeAccrued + if intercepted then Max(0, r.ledger.rewardPool - paidToWinners) else 0
  }

  /** Why a reward claim is refused, or None. */
  function RewardRefusal(r: Room, from: Address, attackId: int): Option<Refusal> {
    if r.outcome.None? then Some(NotResolved)
    else
      var outcome := r.outcome.value;
      if outcome.attackId != attackId then Some(WrongAttack)
      else if FindAttack(r, attackId).None? || r.attack.value.status != AttackResolved then Some(NotResolved)
      else if from !in r.seats then Some(NotJoined)
      else if r.seats[from].defenseAttemptIds == [] then Some(NoDefense)
      else if !outcome.Intercepted() then Some(NotIntercepted)
      else if from !in outcome.Winners() then Some(NotAWinner)
      else if r.seats[from].payoutState == Paid then Some(AlreadyClaimed)
      else if outcome.rewardPerWinner <= 0 then Some(NothingToClaim)
      else None
  }

  /** The room a reward claim leaves behind. */
  function Rewarded(r: Room, from: Address): Room
    requires from in r.seats && r.outcome.Some?
  {
    if ClaimedFee(r, from) > 0 then Settled(Claimed(r, from)) else Claimed(r, from)
  }

  /** A reward claim on a room that has been settled up to this block. */
  function TakeReward(s: State, from: Address, id: Hash, attackId: int): Tx
    requires id in s.rooms
  {
    var r := s.rooms[id];
    var refusal := RewardRefusal(r, from, attackId);
    if refusal.Some? then Failed(s, refusal.value)
    else Confirmed(PayOut(Put(s, id, Rewarded(r, from)), from, r.outcome.value.rewardPerWinner + ClaimedFee(r, from)))
  }

  function ApplyClaimReward(p: Protocol, s: State, from: Address, id: Hash, attackId: int, nowMs: int): Tx
    requires p.limits.epochBlocks > 0
  {
    if id !in s.rooms then Failed(s, LobbyNotFound)
    else TakeReward(SettleLobby(p, s, id, nowMs), from, id, attackId)
  }

  function Claimed(r: Room, from: Address): Room
    requires from in r.seats && r.outcome.Some?
  {
    r.(seats := r.seats[from := r.seats[from].(payoutState := Paid)],
       ledger := r.ledger.(rewardsClaimed := r.ledger.rewardsClaimed + r.outcome.value.rewardPerWinner))
  }

  /** A winner who is also the author takes the creator's due in the same claim. */
  function ClaimedFee(r: Room, from: Address): int {
    if from == r.creator && !r.ledger.creatorSettled then Max(0, CompletedCreatorDue(r)) else 0
  }

  function SeatRefund(r: Room, from: Address): int {
    if from in r.seats && !r.seats[from].refunded && r.seats[from].paidIn > 0 then r.seats[from].paidIn else 0
  }

  function BountyRefund(r: Room, from: Address): int {
    if from == r.creator && !r.ledger.creatorSettled && r.ledger.startPrizePool > 0 then r.ledger.startPrizePool else 0
  }

  /** The room a refund leaves behind. */
  function PaidBack(r: Room, from: Address): Room {
    var back := if SeatRefund(r, from) > 0 then Refunded(r, from) else r;
    if BountyRefund(r, from) > 0 then Settled(back) else back
  }

  /** A refund out of a room that has been settled up to this block. */
  function TakeRefund(s: State, from: Address, id: Hash): Tx
    requires id in s.rooms
  {
    var r := s.rooms[id];
    if r.ending != Unplayed && r.ending != CalledOff then Failed(s, WasPlayed)
    else
      var amount := SeatRefund(r, from) + BountyRefund(r, from);
      if amount <= 0 then
        Failed(s, if from == r.creator && r.ledger.creatorSettled then AlreadyClaimed
                  else if from !in r.seats then NotJoined
                  else if r.seats[from].refunded then AlreadyClaimed else NothingToRefund)
      else Confirmed(PayOut(Put(s, id, PaidBack(r, from)), from, amount))
  }

  function ApplyClaimRefund(p: Protocol, s: State, from: Address, id: Hash, nowMs: int): Tx
    requires p.limits.epochBlocks > 0
  {
    if id !in s.rooms then Failed(s, LobbyNotFound)
    else TakeRefund(SettleLobby(p, s, id, nowMs), from, id)
  }

  /** The flag is raised before the amount is looked at, so a refusal for want of money still raises it. */
  function TakeSettlement(s: State, from: Address, id: Hash): Tx
    requires id in s.rooms
  {
    var r := s.rooms[id];
    if !r.ProtocolOwned() && from != r.creator then Failed(s, NotTheCreator)
    else if r.ledger.creatorSettled then Failed(s, AlreadySettled)
    else if r.ending == NotEnded then Failed(s, NotResolved)
    else
      var amount := if r.ending == Completed then CompletedCreatorDue(r) else r.ledger.startPrizePool;
      var settled := Put(s, id, Settled(r));
      if amount <= 0 then Failed(settled, NothingToSettle)
      else if r.ProtocolOwned() then Confirmed(settled.(pool := settled.pool + amount))
      else Confirmed(PayOut(settled, r.creator, amount))
  }

  function ApplySettleCreator(p: Protocol, s: State, from: Address, id: Hash, nowMs: int): Tx
    requires p.limits.epochBlocks > 0
  {
    if id !in s.rooms then Failed(s, LobbyNotFound)
    else TakeSettlement(SettleLobby(p, s, id, nowMs), from, id)
  }

  datatype Call =
    | CreateLobby(config: LobbyConfig, value: int)
    | JoinLobby(lobbyId: Hash, value: int)
    | LeaveLobby(lobbyId: Hash)
    | BuyDrone(lobbyId: Hash, value: int)
    | SubmitPrivateAction(lobbyId: Hash, envelope: SealedRequest)
    | RevealAttack(lobbyId: Hash, attackId: int)
    | ClaimReward(lobbyId: Hash, attackId: int)
    | ClaimRefund(lobbyId: Hash)
    | SettleCreator(lobbyId: Hash)
    | OpenDraw
    | CollectProbe

  /** One write: a fresh hash, then the call. A refused write keeps whatever it had already settled. */
  function WriteContract(p: Protocol, s: State, from: Address, call: Call, nowMs: int): Tx
    requires p.limits.epochBlocks > 0
  {
    var t := NextHash(s);
    var hash := t.txCounter;
    match call
    case CreateLobby(config, value) => ApplyCreateLobby(p, t, from, config, value, nowMs, hash)
    case JoinLobby(id, value) => ApplyJoinLobby(t, from, id, value, nowMs)
    case LeaveLobby(id) => ApplyLeaveLobby(p, t, from, id, nowMs)
    case BuyDrone(id, value) => ApplyBuyDrone(p, t, from, id, value, nowMs)
    case SubmitPrivateAction(id, envelope) => ApplyPrivateAction(p, t, from, id, envelope, nowMs, hash)
    case RevealAttack(id, attackId) => ApplyRevealAttack(p, t, from, id, attackId, nowMs)
    case ClaimReward(id, attackId) => ApplyClaimReward(p, t, from, id, attackId, nowMs)
    case ClaimRefund(id) => ApplyClaimRefund(p, t, from, id, nowMs)
    case SettleCreator(id) => ApplySettleCreator(p, t, from, id, nowMs)
    case OpenDraw => OpenGlobalDefense(p, t, nowMs, hash)
    case CollectProbe => Confirmed(t)
  }

  /** Everything that can happen to the chain: a block, a read, a write. */
  datatype Step =
    | Mine(nowMs: int)
    | ReadLobby(lobbyId: Hash, nowMs: int)
    | ReadEverything(nowMs: int)
    | Inspect(nowMs: int)
    | Write(from: Address, call: Call, nowMs: int)

  function Next(p: Protocol, s: State, step: Step): State
    requires p.limits.epochBlocks > 0
  {
    match step
    case Mine(nowMs) => MineBlock(p, s, nowMs)
    case ReadLobby(id, nowMs) => SettleLobby(p, s, id, nowMs)
    case ReadEverything(nowMs) => SettleEverything(p, s, nowMs)
    case Inspect(nowMs) => SettleRooms(p, s, s.txCounter, nowMs)
    case Write(from, call, nowMs) => WriteContract(p, s, from, call, nowMs).state
  }

  /** No wallet is the protocol's own account. */
  predicate IsPlayerStep(step: Step) {
    step.Write? ==> step.from != PROTOCOL_ESCROW_ADDRESS
  }

  function Run(p: Protocol, s: State, steps: seq<Step>): State
    requires p.limits.epochBlocks > 0
    decreases |steps|
  {
    if steps == [] then s
    else Next(p, Run(p, s, steps[..|steps| - 1]), steps[|steps| - 1])
  }
}
