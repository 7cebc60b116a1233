/** What the operation screen offers, and that it offers exactly what the protocol would accept. */
module PhaseGuards {
  import opened Options
  import opened Numbers
  import opened World
  import opened Interception
  import opened EmulatorState
  import opened GameContract
  import opened Accounting
  import opened RoomMoves
  import opened RoomHistory
  import opened Solvency
  import opened Runs
  import opened Entitlements
  import opened LazySettlement
  import opened Redaction

  datatype LobbyPhase =
    | TakingApplications | Undersubscribed | WaitingForAttack | AttackIncoming | AttackActive | ResultIn | CalledOffPhase

  const ATTACK_INCOMING_BLOCKS := 15

  function ApplicationsClosed(c: LobbyConfig, block: Option<int>, nowMs: Option<int>): bool {
    if c.deadlineBlock > 0 && block.Some? then block.value >= c.deadlineBlock
    else nowMs.Some? && nowMs.value >= c.deadline
  }

  function DerivePhaseFromAttack(attack: Option<Attack>, block: Option<int>): LobbyPhase {
    if attack.None? then WaitingForAttack
    else if attack.value.status == AttackResolved then ResultIn
    else if attack.value.status == AttackLaunched then AttackActive
    else if block.Some? && attack.value.launchBlock - block.value <= ATTACK_INCOMING_BLOCKS then AttackIncoming
    else WaitingForAttack
  }

  function DeriveLobbyPhase(r: Room, attack: Option<Attack>, block: Option<int>, nowMs: Option<int>): LobbyPhase {
    if r.status == Cancelled then CalledOffPhase
    else if r.status == Resolved then ResultIn
    else if r.status == Open && !ApplicationsClosed(r.config, block, nowMs) then TakingApplications
    else if r.status == Open && r.participantCount < r.config.minPlayers then Undersubscribed
    else if r.status == Open && !(r.config.deadlineBlock > 0 && block.Some?) then TakingApplications
    else DerivePhaseFromAttack(attack, block)
  }

  predicate IsOperationOver(phase: LobbyPhase) { phase in {ResultIn, CalledOffPhase, Undersubscribed} }

  function ProbeCooldownBlocks(lastProbeBlock: int, block: Option<int>): Option<int> {
    if lastProbeBlock <= 0 || block.None? then None
    else if lastProbeBlock + PROBE_DELAY_BLOCKS - block.value > 0 then Some(lastProbeBlock + PROBE_DELAY_BLOCKS - block.value)
    else None
  }

  datatype BlockedReason =
    | JoinFirst | AlreadySubmitted | OperationEnded | ApplicationsStillOpen | OpensAtLaunch | Cooldown(blocks: int)
    | SelectSector | PlacePoint | NoProbesAvailable | AlreadyLaunched | AllProbesBought

  function DefenseBlockedReason(hasJoined: bool, phase: LobbyPhase, submitted: bool, sectorSelected: bool,
                                pointStaged: bool,
                                lastProbeBlock: int, block: Option<int>): Option<BlockedReason>
  {
    if !hasJoined then Some(JoinFirst)
    else if submitted then Some(AlreadySubmitted)
    else if IsOperationOver(phase) then Some(OperationEnded)
    else if phase == TakingApplications then Some(ApplicationsStillOpen)
    else if phase != AttackActive then Some(OpensAtLaunch)
    else if ProbeCooldownBlocks(lastProbeBlock, block).Some? then Some(Cooldown(ProbeCooldownBlocks(lastProbeBlock, block).value))
    else if !sectorSelected then Some(SelectSector)
    else if !pointStaged then Some(PlacePoint)
    else None
  }

  function ReconBlockedReason(hasJoined: bool, phase: LobbyPhase, probesRemaining: int, submitted: bool,
                              lastProbeBlock: int, block: Option<int>): Option<BlockedReason>
  {
    if !hasJoined then Some(JoinFirst)
    else if IsOperationOver(phase) then Some(OperationEnded)
    else if phase != AttackActive then Some(OpensAtLaunch)
    else if submitted then Some(AlreadySubmitted)
    else if probesRemaining <= 0 then Some(NoProbesAvailable)
    else if ProbeCooldownBlocks(lastProbeBlock, block).Some? then Some(Cooldown(ProbeCooldownBlocks(lastProbeBlock, block).value))
    else None
  }

  function ProbePurchaseBlockedReason(hasJoined: bool, phase: LobbyPhase, probesOwned: int,
                                      maxProbes: int): Option<BlockedReason> {
    if !hasJoined then Some(JoinFirst)
    else if IsOperationOver(phase) then Some(OperationEnded)
    else if phase == AttackActive then Some(AlreadyLaunched)
    else if probesOwned >= maxProbes then Some(AllProbesBought)
    else None
  }

  // ------------------------------------- what the screen feeds them with

  function PhaseOf(s: State, r: Room,
                   nowMs: int): LobbyPhase { DeriveLobbyPhase(r, r.attack, Some(s.block), Some(nowMs)) }

  /** Probes owned less probes spent, as the badge counts them. */
  function ProbesAvailable(r: Room, a: Address): int
    requires a in r.seats
  {
    Max(0, r.config.freeProbes + r.seats[a].purchasedDrones - |r.seats[a].probeIds|)
  }

  function LastProbeBlock(r: Room, a: Address): int { if a in r.seats then r.seats[a].lastProbeBlock else 0 }

  /** The Send Defense control, with a sector picked and a point placed in it. */
  function DefenseControl(s: State, r: Room, a: Address, nowMs: int): Option<BlockedReason> {
    DefenseBlockedReason(a in r.seats, PhaseOf(s, r, nowMs), HasAttempt(r, a), true, true, LastProbeBlock(r, a), Some(s.block))
  }

  function ReconControl(s: State, r: Room, a: Address, nowMs: int): Option<BlockedReason> {
    ReconBlockedReason(a in r.seats, PhaseOf(s, r, nowMs), if a in r.seats then ProbesAvailable(r, a) else 0, HasAttempt(r, a),
                       LastProbeBlock(r, a), Some(s.block))
  }

  function PurchaseControl(s: State, r: Room, a: Address, nowMs: int): Option<BlockedReason> {
    ProbePurchaseBlockedReason(a in r.seats, PhaseOf(s, r, nowMs),
                               r.config.freeProbes + (if a in r.seats then r.seats[a].purchasedDrones else 0), r.config.maxProbes)
  }

  // --------------------------------------------------------------- agreement

  /** The phase names the launched attack exactly when the protocol has one in flight in this room. */
  lemma ActivePhaseIff(p: Protocol, s: State, id: Hash, nowMs: int)
    requires p.Valid() && Inv(s) && UpToDate(p, s, id, nowMs)
    ensures var r := s.rooms[id];
            PhaseOf(s, r, nowMs) == AttackActive <==> r.attack.Some? && r.attack.value.status == AttackLaunched
  {
    hide Inv, SettleLobby, AttemptsOk, BooksOk;
    SoundRoom(s, id);
    if s.rooms[id].status == Open { OpenMeansOpen(p, s, id, nowMs); }
    assert s.rooms[id].status != Ready by { RestedRoom(s, id); }
  }

  lemma RestedRoom(s: State, id: Hash)
    requires Inv(s) && id in s.rooms
    ensures s.rooms[id].status != Ready
  {
    hide Solvent, DrawsOk, JackpotOk;
  }

  /** A seat is locked exactly when its attempt is on file. */
  lemma LockedIffAttempted(r: Room, a: Address)
    requires AttemptsOk(r) && a in r.seats
    ensures r.seats[a].defenseAttemptIds != [] <==> HasAttempt(r, a)
  {
    if HasAttempt(r, a) {
      var x :| x in r.attempts && x.participant == a;
      var i :| 0 <= i < |r.attempts| && r.attempts[i] == x;
      assert AttemptOk(r, r.attempts[i]);
    }
  }

  lemma RoomAttempts(r: Room)
    requires RoomOk(r)
    ensures AttemptsOk(r)
    ensures r.attack.Some? && r.attack.value.status != AttackPending ==> r.trajectory.Some?
  {
    hide BooksOk, AttemptsOk;
  }

  /** The Defense control is live exactly when the protocol would accept that Defense, wherever it is placed on the grid. */
  lemma DefenseControlIsTheGuard(p: Protocol, s: State, id: Hash, from: Address, point: DefensePoint, attackId: int,
                                 nowMs: int, hash: Hash)
    requires p.Valid() && Inv(s) && id in s.rooms
    requires IsValidSector(point.sector, p.grid) && IsInsideSector(point)
    requires NamesTheAttack(SettleLobby(p, s, id, nowMs), id, attackId)
    ensures var t := SettleLobby(p, s, id, nowMs);
            DefenseControl(t, t.rooms[id], from, nowMs).None?
            <==> ApplyPrivateAction(p, s, from, id, SealedRequest(p.sealingKey, DefenseSubmit(attackId, point)), nowMs, hash).Confirmed?
  {
    hide Inv, SettleLobby, RoomOk, Defended, AttemptsOk, HasAttempt, DeriveLobbyPhase, UpToDate;
    var t := SettleLobby(p, s, id, nowMs);
    SettledIsUpToDate(p, s, id, nowMs);
    SoundRoom(t, id);
    RoomAttempts(t.rooms[id]);
    ActivePhaseIff(p, t, id, nowMs);
    if from in t.rooms[id].seats { LockedIffAttempted(t.rooms[id], from); }
  }

  /** The screen acts on the attack the settled room shows, if it shows one. */
  predicate NamesTheAttack(s: State, id: Hash, attackId: int) {
    id in s.rooms && s.rooms[id].attack.Some? ==> attackId == s.rooms[id].attack.value.epochId
  }

  /** The Recon control is live exactly when the protocol would accept that probe. */
  lemma ReconControlIsTheGuard(p: Protocol, s: State, id: Hash, from: Address, attackId: int, nowMs: int, hash: Hash)
    requires p.Valid() && Inv(s) && id in s.rooms
    requires NamesTheAttack(SettleLobby(p, s, id, nowMs), id, attackId)
    ensures var t := SettleLobby(p, s, id, nowMs);
            ReconControl(t, t.rooms[id], from, nowMs).None?
            <==> ApplyPrivateAction(p, s, from, id, SealedRequest(p.sealingKey, ReconProbe(attackId)), nowMs, hash).Confirmed?
  {
    hide Inv, SettleLobby, RoomOk, Probed, AttemptsOk, HasAttempt, DeriveLobbyPhase, UpToDate;
    var t := SettleLobby(p, s, id, nowMs);
    SettledIsUpToDate(p, s, id, nowMs);
    SoundRoom(t, id);
    RoomAttempts(t.rooms[id]);
    ActivePhaseIff(p, t, id, nowMs);
    if from in t.rooms[id].seats { LockedIffAttempted(t.rooms[id], from); }
  }

  /** An up-to-date room whose phase is not over is one of the three the protocol still sells probes in. */
  lemma OverIff(p: Protocol, s: State, id: Hash, nowMs: int)
    requires p.Valid() && Inv(s) && UpToDate(p, s, id, nowMs)
    ensures IsOperationOver(PhaseOf(s, s.rooms[id], nowMs)) <==> s.rooms[id].status in {Resolved, Cancelled}
  {
    hide Inv, SettleLobby, AttemptsOk, BooksOk;
    SoundRoom(s, id);
    if s.rooms[id].status == Open { OpenMeansOpen(p, s, id, nowMs); }
    assert s.rooms[id].status != Ready by { RestedRoom(s, id); }
  }

  /**
   * The purchase control is stricter than the emulator: whatever it offers is sold, and what the emulator would still
   * sell although it is not offered is exactly a purchase in flight, before the buyer's own Defense.
   */
  lemma PurchaseControlVersusGuard(p: Protocol, s: State, id: Hash, from: Address, value: int, nowMs: int)
    requires p.Valid() && Inv(s) && id in s.rooms
    requires var t := SettleLobby(p, s, id, nowMs);
             value >= t.rooms[id].config.probePrice && BalanceOf(t.accounts, from) >= t.rooms[id].config.probePrice
    ensures var t := SettleLobby(p, s, id, nowMs);
            var r := t.rooms[id];
            var sold := ApplyBuyDrone(p, s, from, id, value, nowMs).Confirmed?;
            var inFlight := r.attack.Some? && r.attack.value.status == AttackLaunched;
            && (PurchaseControl(t, r, from, nowMs).None? ==> sold)
            && (sold && PurchaseControl(t, r, from, nowMs).Some? ==> inFlight)
            && (sold ==> (PurchaseControl(t, r, from, nowMs).None? <==> !inFlight))
  {
    hide Inv, SettleLobby, RoomOk, Bought, DeriveLobbyPhase, UpToDate;
    var t := SettleLobby(p, s, id, nowMs);
    var r := t.rooms[id];
    SettledIsUpToDate(p, s, id, nowMs);
    SoundRoom(t, id);
    ActivePhaseIff(p, t, id, nowMs);
    OverIff(p, t, id, nowMs);
    if from in r.seats && r.status in {Open, Ready, Active} && !(r.attack.Some? && r.attack.value.status == AttackLaunched) {
      NotFlyingNotLocked(r, from);
    }
  }

  /** Nobody has placed a Defense before the attack is in flight. */
  lemma NotFlyingNotLocked(r: Room, a: Address)
    requires RoomOk(r) && a in r.seats && r.status in {Open, Ready, Active}
    requires !(r.attack.Some? && r.attack.value.status == AttackLaunched)
    ensures r.seats[a].defenseAttemptIds == []
  {
    hide BooksOk, AttemptsOk;
  }
}
