/** What a reader may be told: before an attack resolves, no read depends on its path or on others' Defense Points. */
module Redaction {
  import opened Sums
  import opened Options
  import opened Numbers
  import opened World
  import opened Interception
  import opened Epochs
  import opened GlobalDefense
  import opened EmulatorState
  import opened GameContract
  import opened Accounting
  import opened RoomMoves
  import opened RoomHistory
  import opened Jackpot
  import opened Solvency
  import opened Runs
  import opened Entitlements
  import opened LazySettlement

  type Viewer = Option<Address>

  datatype Query =
    | GetGameStats
    | GetSealingKey
    | GetGlobalDefenseDraw
    | GetLobby(lobbyId: Hash)
    | GetLobbyParticipants(lobbyId: Hash)
    | GetParticipant(lobbyId: Hash, address: Address)
    | GetActivityMap(lobbyId: Hash, attackId: int)
    | GetAttackEpoch(lobbyId: Hash, epochId: int)
    | GetAttack(lobbyId: Hash, attackId: int)
    | GetAttackReveal(lobbyId: Hash, attackId: int)
    | GetDefenseAttempts(lobbyId: Hash, attackId: int)

  datatype GameStats = GameStats(activeLobbies: int, totalLobbies: int, totalAttacks: int, interceptedAttacks: int,
                                 missedAttacks: int, currentBlock: int, currentEpoch: int, pool: int, drawLobby: Option<Hash>)

  datatype DrawInfo = DrawInfo(nextEpoch: int, interval: int, pool: int, lobbyId: Option<Hash>)

  datatype LobbyView = LobbyView(
    creator: Address, status: LobbyStatus, ending: LobbyEnding, config: LobbyConfig, participantCount: int,
    participantAddresses: seq<Address>, currentEpochId: Option<int>, activeAttackId: Option<int>,
    outcome: Option<AttackOutcome>, revealed: Option<LobbyReveal>, creatorSettlement: int, creatorSettled: bool)

  /** An attempt as it is told: in the clear after the reveal, sealed to its owner before, bare for everyone else. */
  datatype AttemptView = AttemptView(id: Hash, participant: Address, submittedAtBlock: int,
                                     point: Option<DefensePoint>, sealedToOwner: Option<DefensePoint>)

  datatype RevealData = RevealData(trajectory: Trajectory, outcome: AttackOutcome, attempts: seq<AttemptView>,
                                   revealedAtBlock: int, launchBlock: int, flightDurationBlocks: nat)

  datatype EpochView = EpochView(epochId: int, startBlock: int, endBlock: int)

  datatype Answer =
    | Stats(stats: GameStats)
    | Key(key: nat)
    | Draw(info: DrawInfo)
    | TheLobby(lobby: Option<LobbyView>)
    | Participants(participants: map<Address, Participant>)
    | TheParticipant(participant: Option<Participant>)
    | Activity(cells: multiset<Sector>)
    | Epoch(epoch: Option<EpochView>)
    | TheAttack(attack: Option<Attack>)
    | Reveal(data: Option<RevealData>)
    | Attempts(attempts: seq<AttemptView>)

  // ------------------------------------------------------------------ answers

  function Redact(r: Room, a: Address, viewer: Viewer): Participant
    requires a in r.seats
  {
    if viewer == Some(a) || r.revealed.Some? then r.seats[a]
    else r.seats[a].(probeIds := [], defenseAttemptIds := [])
  }

  predicate IsRevealed(r: Room, attackId: int) { r.revealed.Some? && r.revealed.value.attackId == attackId }

  function OpenPoint(r: Room, id: Hash): Option<DefensePoint> { if id in r.points then Some(r.points[id]) else None }

  function ShowAttempt(r: Room, x: StoredAttempt, inTheClear: bool, viewer: Viewer): AttemptView {
    AttemptView(x.id, x.participant, x.submittedAtBlock,
                if inTheClear then OpenPoint(r, x.id) else None,
                if !inTheClear && viewer == Some(x.participant) then OpenPoint(r, x.id) else None)
  }

  function ShowAttempts(r: Room, attackId: int, viewer: Viewer): seq<AttemptView> {
    if FindAttack(r, attackId).None? then []
    else seq(|r.attempts|, i requires 0 <= i < |r.attempts| => ShowAttempt(r, r.attempts[i], IsRevealed(r, attackId), viewer))
  }

  function Sectors(r: Room): multiset<Sector> {
    multiset(seq(|r.attempts|, i requires 0 <= i < |r.attempts| =>
      if r.attempts[i].id in r.points then r.points[r.attempts[i].id].sector else Sector(0, 0)))
  }

  function ShowLobby(r: Room): LobbyView {
    LobbyView(r.creator, r.status, r.ending, r.config, r.participantCount, r.participantAddresses, r.currentEpochId,
              if r.attack.Some? then Some(r.attack.value.epochId) else None, r.outcome, r.revealed,
              CreatorSettlement(r), r.ledger.creatorSettled)
  }

  function ShowReveal(r: Room, attackId: int): Option<RevealData> {
    if !IsRevealed(r, attackId) || r.outcome.None? || r.outcome.value.attackId != attackId || FindAttack(r, attackId).None? then None
    else Some(RevealData(r.revealed.value.trajectory, r.outcome.value, ShowAttempts(r, attackId, None),
                         r.revealed.value.revealedAtBlock, r.attack.value.launchBlock, r.attack.value.flightDurationBlocks))
  }

  function DrawFor(p: Protocol, s: State): Option<Hash>
    requires p.limits.epochBlocks > 0
  {
    if p.limits.globalDefenseEpochInterval > 0 && UpcomingDraw(p, s.block).nextEpoch in s.draws
    then Some(s.draws[UpcomingDraw(p, s.block).nextEpoch]) else None
  }

  /** The rooms, of those looked at, that a statistic counts. */
  function ActiveAmong(rooms: map<Hash, Room>, ids: set<Hash>): set<Hash> {
    set id | id in ids && id in rooms && rooms[id].status in {Open, Ready, Active}
  }

  function InterceptedAmong(rooms: map<Hash, Room>, ids: set<Hash>): set<Hash> {
    set id | id in ids && id in rooms && rooms[id].outcome.Some? && rooms[id].outcome.value.Intercepted()
  }

  function InFlightAmong(rooms: map<Hash, Room>, ids: set<Hash>): set<Hash> {
    set id | id in ids && id in rooms && rooms[id].attack.Some? && rooms[id].attack.value.status == AttackLaunched
  }

  function CountActive(s: State): int { |ActiveAmong(s.rooms, s.rooms.Keys)| }

  function CountIntercepted(s: State): int { |InterceptedAmong(s.rooms, s.rooms.Keys)| }

  function CountInFlight(s: State): int { |InFlightAmong(s.rooms, s.rooms.Keys)| }

  /** The figures, from the three counts: interceptions are capped by the attacks there were, those in flight held out. */
  function StatsFrom(p: Protocol, s: State, active: int, intercepted: int, inFlight: int): GameStats
    requires p.limits.epochBlocks > 0
  {
    var epoch := ProtocolEpoch(p, s.block);
    var total := Max(0, epoch);
    var capped := Min(intercepted, total);
    var undecided := Min(inFlight, total - capped);
    GameStats(active, |s.rooms|, total, capped, total - capped - undecided, s.block, epoch, s.pool, DrawFor(p, s))
  }

  function ComputeGameStats(p: Protocol, s: State): GameStats
    requires p.limits.epochBlocks > 0
  {
    StatsFrom(p, s, CountActive(s), CountIntercepted(s), CountInFlight(s))
  }

  /** The three outcomes add up to the attacks there were, none is negative, and what is in the sky is no impact. */
  lemma StatsAddUp(p: Protocol, s: State)
    requires p.Valid()
    ensures var g := ComputeGameStats(p, s);
            && 0 <= g.interceptedAttacks <= g.totalAttacks && 0 <= g.missedAttacks
            && g.interceptedAttacks + g.missedAttacks + Min(CountInFlight(s), g.totalAttacks - g.interceptedAttacks) == g.totalAttacks
            && (CountInFlight(s) + CountIntercepted(s) >= g.totalAttacks ==> g.missedAttacks == 0)
            && 0 <= g.activeLobbies <= g.totalLobbies
  {
    hide ProtocolEpoch, DrawFor;
    SubsetCounts(ActiveAmong(s.rooms, s.rooms.Keys), s.rooms.Keys);
    assert |s.rooms| == |s.rooms.Keys|;
  }

  lemma SubsetCounts(a: set<Hash>, b: set<Hash>)
    requires a <= b
    ensures |a| <= |b|
  {
    if a != {} {
      var x :| x in a;
      SubsetCounts(a - {x}, b - {x});
    }
  }

  function ComputeGlobalDefenseDraw(p: Protocol, s: State): DrawInfo
    requires p.limits.epochBlocks > 0
  {
    if p.limits.globalDefenseEpochInterval <= 0 then DrawInfo(0, 0, s.pool, None)
    else DrawInfo(UpcomingDraw(p, s.block).nextEpoch, p.limits.globalDefenseEpochInterval, s.pool, DrawFor(p, s))
  }

  /** What a read settles before it answers. */
  function SettledFor(p: Protocol, s: State, q: Query, nowMs: int): State
    requires p.limits.epochBlocks > 0
  {
    match q
    case GetGameStats => SettleEverything(p, s, nowMs)
    case GetGlobalDefenseDraw => SettleEverything(p, s, nowMs)
    case GetSealingKey => s
    case _ => SettleLobby(p, s, q.lobbyId, nowMs)
  }

  /** The answer out of a settled state. */
  function AnswerFrom(p: Protocol, s: State, q: Query, viewer: Viewer): Answer
    requires p.limits.epochBlocks > 0
  {
    match q
    case GetGameStats => Stats(ComputeGameStats(p, s))
    case GetSealingKey => Key(p.sealingKey)
    case GetGlobalDefenseDraw => Draw(ComputeGlobalDefenseDraw(p, s))
    case GetLobby(id) => TheLobby(if id in s.rooms then Some(ShowLobby(s.rooms[id])) else None)
    case GetLobbyParticipants(id) =>
      Participants(if id in s.rooms then map a | a in s.rooms[id].seats :: Redact(s.rooms[id], a, viewer) else map[])
    case GetParticipant(id, a) =>
      TheParticipant(if id in s.rooms && a in s.rooms[id].seats then Some(Redact(s.rooms[id], a, viewer)) else None)
    case GetActivityMap(id, attackId) =>
      Activity(if id in s.rooms && IsRevealed(s.rooms[id], attackId) then Sectors(s.rooms[id]) else multiset{})
    case GetAttackEpoch(id, epochId) =>
      Epoch(if id in s.rooms && FindAttack(s.rooms[id], epochId).Some?
            then Some(EpochView(epochId, GetEpochStartBlock(epochId, p.limits.epochBlocks, p.genesisBlock),
                                GetEpochEndBlock(epochId, p.limits.epochBlocks, p.genesisBlock))) else None)
    case GetAttack(id, attackId) => TheAttack(if id in s.rooms then FindAttack(s.rooms[id], attackId) else None)
    case GetAttackReveal(id, attackId) => Reveal(if id in s.rooms then ShowReveal(s.rooms[id], attackId) else None)
    case GetDefenseAttempts(id, attackId) => Attempts(if id in s.rooms then ShowAttempts(s.rooms[id], attackId, viewer) else [])
  }

  function ReadContract(p: Protocol, s: State, q: Query, viewer: Viewer, nowMs: int): Answer
    requires p.limits.epochBlocks > 0
  {
    AnswerFrom(p, SettledFor(p, s, q, nowMs), q, viewer)
  }

  // ------------------------------------------------------- what must not matter

  /** Two rooms that differ at most in a sealed path and in points the viewer did not place. */
  predicate LowEqRooms(r: Room, t: Room, viewer: Viewer) {
    && t == r.(trajectory := t.trajectory, points := t.points)
    && (r.trajectory.Some? <==> t.trajectory.Some?)
    && r.points.Keys == t.points.Keys
    && forall x :: x in r.attempts && viewer == Some(x.participant) && x.id in r.points ==> t.points[x.id] == r.points[x.id]
  }

  /** The room's attack is scheduled or flying, and does not land at this block. */
  predicate Undecided(r: Room, block: int) {
    r.attack.Some? && r.attack.value.status != AttackResolved && block < r.attack.value.ImpactBlock()
  }

  predicate HiddenAlike(r: Room, t: Room, viewer: Viewer, block: int) {
    r == t || (LowEqRooms(r, t, viewer) && Undecided(r, block))
  }

  /** Two states that differ only in what an undecided attack keeps sealed from the viewer. */
  predicate LowEq(s: State, t: State, viewer: Viewer) {
    && t == s.(rooms := t.rooms) && t.rooms.Keys == s.rooms.Keys
    && forall id :: id in s.rooms ==> HiddenAlike(s.rooms[id], t.rooms[id], viewer, s.block)
  }

  // --------------------------------------------------------- settling is blind

  function With(s: State, rooms: map<Hash, Room>): State { s.(rooms := rooms) }

  /** A step on one room reads and writes no other room. */
  lemma RefundSeatFrame(s: State, rooms: map<Hash, Room>, id: Hash, a: Address)
    requires id in s.rooms && id in rooms && rooms[id] == s.rooms[id]
    ensures var t := RefundSeat(s, id, a); RefundSeat(With(s, rooms), id, a) == With(t, rooms[id := t.rooms[id]])
  {
    assert rooms[id := rooms[id]] == rooms;
  }

  lemma {:induction false} RefundSeatsFrame(s: State, rooms: map<Hash, Room>, id: Hash, addresses: seq<Address>)
    requires id in s.rooms && id in rooms && rooms[id] == s.rooms[id]
    ensures var t := RefundSeats(s, id, addresses); RefundSeats(With(s, rooms), id, addresses) == With(t, rooms[id := t.rooms[id]])
    decreases |addresses|
  {
    hide RefundSeat;
    if addresses == [] {
      assert rooms[id := rooms[id]] == rooms;
    } else {
      var u := RefundSeat(s, id, addresses[0]);
      RefundSeatFrame(s, rooms, id, addresses[0]);
      RefundSeatsFrame(u, rooms[id := u.rooms[id]], id, addresses[1..]);
      var t := RefundSeats(s, id, addresses);
      assert rooms[id := u.rooms[id]][id := t.rooms[id]] == rooms[id := t.rooms[id]];
    }
  }

  lemma ReturnBountyFrame(s: State, rooms: map<Hash, Room>, id: Hash)
    requires id in s.rooms && id in rooms && rooms[id] == s.rooms[id]
    ensures var t := ReturnBounty(s, id); ReturnBounty(With(s, rooms), id) == With(t, rooms[id := t.rooms[id]])
  {
    assert rooms[id := rooms[id]] == rooms;
  }

  lemma PayoutUnplayedFrame(s: State, rooms: map<Hash, Room>, id: Hash)
    requires id in s.rooms && id in rooms && rooms[id] == s.rooms[id]
    ensures var t := PayoutUnplayed(s, id); PayoutUnplayed(With(s, rooms), id) == With(t, rooms[id := t.rooms[id]])
  {
    hide RefundSeats, ReturnBounty;
    var u := RefundSeats(s, id, s.rooms[id].participantAddresses);
    RefundSeatsFrame(s, rooms, id, s.rooms[id].participantAddresses);
    ReturnBountyFrame(u, rooms[id := u.rooms[id]], id);
    var t := PayoutUnplayed(s, id);
    assert rooms[id := u.rooms[id]][id := t.rooms[id]] == rooms[id := t.rooms[id]];
  }

  lemma CloseFrame(s: State, rooms: map<Hash, Room>, id: Hash, nowMs: int)
    requires id in s.rooms && id in rooms && rooms[id] == s.rooms[id]
    ensures var t := CloseApplications(s, id, nowMs); CloseApplications(With(s, rooms), id, nowMs) == With(t, rooms[id := t.rooms[id]])
  {
    hide PayoutUnplayed;
    var r := s.rooms[id];
    assert rooms[id := rooms[id]] == rooms;
    if r.status == Open && DeadlinePassed(r.config, s.block, nowMs) && r.participantCount < r.config.minPlayers {
      var c := r.(status := Cancelled, ending := Unplayed);
      PayoutUnplayedFrame(Put(s, id, c), rooms[id := c], id);
      var t := PayoutUnplayed(Put(s, id, c), id);
      assert rooms[id := c][id := t.rooms[id]] == rooms[id := t.rooms[id]];
    }
  }

  lemma ActivateFrame(p: Protocol, s: State, rooms: map<Hash, Room>, id: Hash)
    requires p.Valid() && id in s.rooms && id in rooms && rooms[id] == s.rooms[id]
    ensures var t := Activate(p, s, id); Activate(p, With(s, rooms), id) == With(t, rooms[id := t.rooms[id]])
  {
    hide ActivatedRoom;
  }

  lemma AdvanceFrame(p: Protocol, s: State, rooms: map<Hash, Room>, id: Hash)
    requires p.Valid() && id in s.rooms && id in rooms && rooms[id] == s.rooms[id] && s.rooms[id].status == Active
    requires Solvent(s) && DrawsOk(s) && AtRest(s)
    requires Solvent(With(s, rooms)) && DrawsOk(With(s, rooms)) && AtRest(With(s, rooms))
    ensures var t := AdvanceAttack(p, s, id); AdvanceAttack(p, With(s, rooms), id) == With(t, rooms[id := t.rooms[id]])
  {
    hide Solvent, DrawsOk, AtRest, AdvanceAttack, AdvancedRoom, AdvancedForfeit;
    AdvanceIs(p, s, id);
    AdvanceIs(p, With(s, rooms), id);
  }

  function Closed(s: State, id: Hash, nowMs: int): State
    requires id in s.rooms
  {
    CloseApplications(s, id, nowMs)
  }

  function StartedFrom(p: Protocol, closed: State, id: Hash): State
    requires p.limits.epochBlocks > 0 && id in closed.rooms
  {
    if closed.rooms[id].status == Ready then Activate(p, closed, id) else closed
  }

  lemma SettleStages(p: Protocol, s: State, id: Hash, nowMs: int)
    requires p.Valid() && id in s.rooms && Inv(s)
    ensures var started := StartedFrom(p, Closed(s, id, nowMs), id);
            && Solvent(started) && DrawsOk(started) && AtRest(started)
            && SettleLobby(p, s, id, nowMs)
               == if started.rooms[id].status == Active then AdvanceAttack(p, started, id) else started
  {
    hide Solvent, JackpotOk, DrawsOk, CloseApplications, Activate, AdvanceAttack, Evolves, PoolTerm, Orphaned;
    var closed := CloseApplications(s, id, nowMs);
    CloseKeeps(s, id, nowMs);
    OnlyRoomKeepsDraws(s, closed, id);
    if closed.rooms[id].status == Ready {
      ActivateKeeps(p, closed, id);
      OnlyRoomKeepsDraws(closed, Activate(p, closed, id), id);
    }
  }

  /** Settling a room that is the same in both does the same to both, and leaves the rest of each alone. */
  lemma SettleFrame(p: Protocol, s: State, rooms: map<Hash, Room>, id: Hash, nowMs: int)
    requires p.Valid() && id in s.rooms && id in rooms && rooms[id] == s.rooms[id]
    requires Inv(s) && Inv(With(s, rooms))
    ensures var t := SettleLobby(p, s, id, nowMs);
            id in t.rooms && SettleLobby(p, With(s, rooms), id, nowMs) == With(t, rooms[id := t.rooms[id]])
  {
    hide Inv, Solvent, DrawsOk, AtRest, CloseApplications, Activate, AdvanceAttack, SettleLobby;
    var closed := Closed(s, id, nowMs);
    var crooms := rooms[id := closed.rooms[id]];
    CloseFrame(s, rooms, id, nowMs);
    SettleStages(p, s, id, nowMs);
    SettleStages(p, With(s, rooms), id, nowMs);
    var started := StartedFrom(p, closed, id);
    var srooms := rooms[id := started.rooms[id]];
    if closed.rooms[id].status == Ready {
      ActivateFrame(p, closed, crooms, id);
    }
    assert crooms[id := started.rooms[id]] == srooms;
    if started.rooms[id].status == Active {
      AdvanceFrame(p, started, srooms, id);
      var t := AdvanceAttack(p, started, id);
      assert srooms[id := t.rooms[id]] == rooms[id := t.rooms[id]];
    }
  }

  /** An undecided attack's room is active, unrevealed, and settling it only ever marks the launch. */
  lemma UndecidedIsActive(r: Room, block: int)
    requires RoomOk(r) && Undecided(r, block)
    ensures r.status == Active && r.revealed.None? && Judgeable(r)
  {
    hide BooksOk, AttemptsOk;
  }

  lemma SettleUndecided(p: Protocol, s: State, id: Hash, nowMs: int)
    requires p.Valid() && Inv(s) && id in s.rooms && Undecided(s.rooms[id], s.block)
    ensures SettleLobby(p, s, id, nowMs) == Put(s, id, LaunchedRoom(s.rooms[id], s.block))
  {
    hide Solvent, DrawsOk, JackpotOk, AdvanceAttack, SettleLobby, RoomOk;
    SolventRoom(s, id);
    UndecidedIsActive(s.rooms[id], s.block);
    ActiveSettles(p, s, id, nowMs);
    AdvanceIs(p, s, id);
  }

  lemma LaunchKeepsLikeness(r: Room, t: Room, viewer: Viewer, block: int)
    requires LowEqRooms(r, t, viewer) && Undecided(r, block)
    ensures Undecided(t, block) && LowEqRooms(LaunchedRoom(r, block), LaunchedRoom(t, block), viewer)
    ensures Undecided(LaunchedRoom(r, block), block)
  {
  }

  lemma PutLow(s: State, t: State, u: State, viewer: Viewer, id: Hash, r: Room, q: Room)
    requires LowEq(s, t, viewer) && id in s.rooms && HiddenAlike(r, q, viewer, s.block)
    requires u.rooms == s.rooms[id := r] && u.block == s.block
    ensures LowEq(u, With(u, t.rooms[id := q]), viewer)
  {
    hide HiddenAlike;
  }

  lemma SettleIsBlind(p: Protocol, s: State, t: State, viewer: Viewer, id: Hash, nowMs: int)
    requires p.Valid() && Inv(s) && Inv(t) && LowEq(s, t, viewer)
    ensures LowEq(SettleLobby(p, s, id, nowMs), SettleLobby(p, t, id, nowMs), viewer)
  {
    hide Inv, SettleLobby, HiddenAlike, LowEqRooms;
    if id in s.rooms {
      var r, q := s.rooms[id], t.rooms[id];
      if r == q {
        var u := SettleLobby(p, s, id, nowMs);
        assert t == With(s, t.rooms);
        SettleFrame(p, s, t.rooms, id, nowMs);
        SettledElsewhere(p, s, id, nowMs);
        SameIsHidden(u.rooms[id], viewer, s.block);
        PutLow(s, t, u, viewer, id, u.rooms[id], u.rooms[id]);
      } else {
        HiddenParts(r, q, viewer, s.block);
        LaunchKeepsLikeness(r, q, viewer, s.block);
        SettleUndecided(p, s, id, nowMs);
        SettleUndecided(p, t, id, nowMs);
        LaunchHidden(r, q, viewer, s.block);
        PutLow(s, t, SettleLobby(p, s, id, nowMs), viewer, id, LaunchedRoom(r, s.block), LaunchedRoom(q, s.block));
        assert SettleLobby(p, t, id, nowMs) == With(SettleLobby(p, s, id, nowMs), t.rooms[id := LaunchedRoom(q, s.block)]);
      }
    } else {
      UnknownSettles(p, s, id, nowMs);
      UnknownSettles(p, t, id, nowMs);
    }
  }

  lemma UnknownSettles(p: Protocol, s: State, id: Hash, nowMs: int)
    requires p.Valid() && id !in s.rooms
    ensures SettleLobby(p, s, id, nowMs) == s
  {
  }

  lemma SameIsHidden(r: Room, viewer: Viewer, block: int)
    ensures HiddenAlike(r, r, viewer, block)
  {
  }

  lemma HiddenParts(r: Room, t: Room, viewer: Viewer, block: int)
    requires HiddenAlike(r, t, viewer, block) && r != t
    ensures LowEqRooms(r, t, viewer) && Undecided(r, block)
  {
  }

  lemma LaunchHidden(r: Room, t: Room, viewer: Viewer, block: int)
    requires LowEqRooms(r, t, viewer) && Undecided(r, block)
    ensures HiddenAlike(LaunchedRoom(r, block), LaunchedRoom(t, block), viewer, block)
  {
    LaunchKeepsLikeness(r, t, viewer, block);
  }

  lemma SettledElsewhere(p: Protocol, s: State, id: Hash, nowMs: int)
    requires p.Valid() && Inv(s) && id in s.rooms
    ensures var u := SettleLobby(p, s, id, nowMs); id in u.rooms && u.rooms == s.rooms[id := u.rooms[id]] && u.block == s.block
  {
    hide Solvent, SettleLobby, Evolves, PoolTerm, Orphaned, JackpotOk, DrawsOk;
    SettleKeeps(p, s, id, nowMs);
  }

  lemma {:induction false} SettleRoomsIsBlind(p: Protocol, s: State, t: State, viewer: Viewer, count: nat, nowMs: int)
    requires p.Valid() && Inv(s) && Inv(t) && LowEq(s, t, viewer)
    ensures LowEq(SettleRooms(p, s, count, nowMs), SettleRooms(p, t, count, nowMs), viewer)
  {
    hide Inv, LowEq, SettleLobby, Continues, NothingOrphaned;
    if count > 0 {
      SettleRoomsIsBlind(p, s, t, viewer, count - 1, nowMs);
      SettleRoomsKeep(p, s, count - 1, nowMs);
      SettleRoomsKeep(p, t, count - 1, nowMs);
      SettleIsBlind(p, SettleRooms(p, s, count - 1, nowMs), SettleRooms(p, t, count - 1, nowMs), viewer, count, nowMs);
    }
  }

  lemma SettleDrawIsBlind(s: State, t: State, viewer: Viewer, id: Hash)
    requires Inv(s) && Inv(t) && LowEq(s, t, viewer)
    ensures LowEq(SettleProtocolDraw(s, id), SettleProtocolDraw(t, id), viewer)
  {
    hide Solvent, JackpotOk, DrawsOk, HiddenAlike, LowEqRooms, RoomOk;
    if id in s.rooms {
      var r, q := s.rooms[id], t.rooms[id];
      if r == q {
        SameIsHidden(Settled(r), viewer, s.block);
        PutLow(s, t, Put(s, id, Settled(r)), viewer, id, Settled(r), Settled(r));
      } else {
        HiddenParts(r, q, viewer, s.block);
        SolventRoom(s, id);
        SolventRoom(t, id);
        LaunchKeepsLikeness(r, q, viewer, s.block);
        UndecidedIsRunning(r, s.block);
        UndecidedIsRunning(q, s.block);
      }
    }
  }

  lemma UndecidedIsRunning(r: Room, block: int)
    requires RoomOk(r) && Undecided(r, block)
    ensures r.ending == NotEnded
  {
    hide BooksOk, AttemptsOk;
  }

  lemma {:induction false} SettleDrawsIsBlind(s: State, t: State, viewer: Viewer, count: nat)
    requires Inv(s) && Inv(t) && LowEq(s, t, viewer)
    ensures LowEq(SettleProtocolDraws(s, count), SettleProtocolDraws(t, count), viewer)
  {
    hide Inv, LowEq, SettleProtocolDraw, Continues, NothingOrphaned;
    if count > 0 {
      SettleDrawsIsBlind(s, t, viewer, count - 1);
      SettleDrawsKeep(s, count - 1);
      SettleDrawsKeep(t, count - 1);
      SettleDrawIsBlind(SettleProtocolDraws(s, count - 1), SettleProtocolDraws(t, count - 1), viewer, count);
    }
  }

  lemma OpenDrawIsBlind(p: Protocol, s: State, t: State, viewer: Viewer, nowMs: int)
    requires p.Valid() && LowEq(s, t, viewer) && s.txCounter + 1 !in s.rooms
    ensures LowEq(MaybeOpenGlobalDefense(p, s, nowMs), MaybeOpenGlobalDefense(p, t, nowMs), viewer)
  {
    hide DrawRoom, HiddenAlike;
    forall r: Room
      ensures HiddenAlike(r, r, viewer, s.block)
    {
      SameIsHidden(r, viewer, s.block);
    }
  }

  lemma SettleEverythingIsBlind(p: Protocol, s: State, t: State, viewer: Viewer, nowMs: int)
    requires p.Valid() && Inv(s) && Inv(t) && LowEq(s, t, viewer)
    ensures LowEq(SettleEverything(p, s, nowMs), SettleEverything(p, t, nowMs), viewer)
  {
    hide Inv, HiddenAlike, SettleRooms, SettleProtocolDraws, MaybeTopUpGlobalDefense, MaybeOpenGlobalDefense,
         Continues, NothingOrphaned;
    var s1, t1 := SettleRooms(p, s, s.txCounter, nowMs), SettleRooms(p, t, t.txCounter, nowMs);
    SettleRoomsIsBlind(p, s, t, viewer, s.txCounter, nowMs);
    SettleRoomsKeep(p, s, s.txCounter, nowMs);
    SettleRoomsKeep(p, t, t.txCounter, nowMs);
    var s2, t2 := SettleProtocolDraws(s1, s.txCounter), SettleProtocolDraws(t1, t.txCounter);
    SettleDrawsIsBlind(s1, t1, viewer, s.txCounter);
    SettleDrawsKeep(s1, s.txCounter);
    SettleDrawsKeep(t1, t.txCounter);
    TopUpIdles(p, s2);
    TopUpIdles(p, t2);
    FreshId(s2);
    OpenDrawIsBlind(p, s2, t2, viewer, nowMs);
  }

  // --------------------------------------------------------- answers are blind

  lemma AttemptsAreBlind(r: Room, t: Room, attackId: int, viewer: Viewer)
    requires LowEqRooms(r, t, viewer) && r.revealed.None?
    ensures ShowAttempts(r, attackId, viewer) == ShowAttempts(t, attackId, viewer)
  {
    forall i | 0 <= i < |r.attempts|
      ensures ShowAttempt(r, r.attempts[i], false, viewer) == ShowAttempt(t, t.attempts[i], false, viewer)
    {
      assert r.attempts[i] in r.attempts;
    }
    assert ShowAttempts(r, attackId, viewer) == ShowAttempts(t, attackId, viewer);
  }

  lemma CountsAreBlind(s: State, t: State, viewer: Viewer)
    requires LowEq(s, t, viewer)
    ensures CountActive(s) == CountActive(t) && CountIntercepted(s) == CountIntercepted(t)
    ensures CountInFlight(s) == CountInFlight(t)
    ensures |s.rooms| == |t.rooms|
  {
    hide Undecided;
    assert forall id :: id in s.rooms ==>
      s.rooms[id].status == t.rooms[id].status && s.rooms[id].outcome == t.rooms[id].outcome && s.rooms[id].attack == t.rooms[id].attack;
    assert ActiveAmong(s.rooms, s.rooms.Keys) == ActiveAmong(t.rooms, t.rooms.Keys);
    assert InterceptedAmong(s.rooms, s.rooms.Keys) == InterceptedAmong(t.rooms, t.rooms.Keys);
    assert InFlightAmong(s.rooms, s.rooms.Keys) == InFlightAmong(t.rooms, t.rooms.Keys);
    assert |s.rooms.Keys| == |t.rooms.Keys|;
  }

  /** Everything a read is made from, but for the attempts, is the same in two such rooms. */
  lemma PublicParts(r: Room, t: Room, viewer: Viewer)
    requires LowEqRooms(r, t, viewer)
    ensures r.seats == t.seats && r.attack == t.attack && r.revealed == t.revealed && r.outcome == t.outcome
    ensures ShowLobby(r) == ShowLobby(t) && forall a :: a in r.seats ==> Redact(r, a, viewer) == Redact(t, a, viewer)
  {
    hide CreatorSettlement;
    SettlementIsBlind(r, t, viewer);
  }

  lemma RoomAnswersAreBlind(p: Protocol, s: State, t: State, q: Query, viewer: Viewer)
    requires p.Valid() && !q.GetGameStats? && !q.GetSealingKey? && !q.GetGlobalDefenseDraw?
    requires q.lobbyId in s.rooms && q.lobbyId in t.rooms
    requires LowEqRooms(s.rooms[q.lobbyId], t.rooms[q.lobbyId], viewer) && s.rooms[q.lobbyId].revealed.None?
    ensures AnswerFrom(p, s, q, viewer) == AnswerFrom(p, t, q, viewer)
  {
    hide LowEqRooms, ShowAttempts, ShowLobby, Redact, Sectors;
    PublicParts(s.rooms[q.lobbyId], t.rooms[q.lobbyId], viewer);
    if q.GetDefenseAttempts? {
      AttemptsAreBlind(s.rooms[q.lobbyId], t.rooms[q.lobbyId], q.attackId, viewer);
    }
  }

  lemma SameRoomSameAnswer(p: Protocol, s: State, t: State, q: Query, viewer: Viewer)
    requires p.Valid() && !q.GetGameStats? && !q.GetSealingKey? && !q.GetGlobalDefenseDraw?
    requires q.lobbyId in s.rooms <==> q.lobbyId in t.rooms
    requires q.lobbyId in s.rooms ==> s.rooms[q.lobbyId] == t.rooms[q.lobbyId]
    ensures AnswerFrom(p, s, q, viewer) == AnswerFrom(p, t, q, viewer)
  {
    hide ShowAttempts, ShowLobby, Redact, Sectors, ShowReveal;
  }

  /** Out of two settled states that differ only in what is sealed, the viewer is told the same. */
  lemma AnswersAreBlind(p: Protocol, s: State, t: State, q: Query, viewer: Viewer)
    requires p.Valid() && Inv(s) && LowEq(s, t, viewer)
    ensures AnswerFrom(p, s, q, viewer) == AnswerFrom(p, t, q, viewer)
  {
    hide Inv, LowEqRooms, Undecided, HiddenAlike, RoomOk, ComputeGameStats, ComputeGlobalDefenseDraw;
    if q.GetGameStats? || q.GetGlobalDefenseDraw? || q.GetSealingKey? {
      CountsAreBlind(s, t, viewer);
      StatsAreBlind(p, s, t);
    } else if q.lobbyId in s.rooms && s.rooms[q.lobbyId] != t.rooms[q.lobbyId] {
      var r, u := s.rooms[q.lobbyId], t.rooms[q.lobbyId];
      HiddenParts(r, u, viewer, s.block);
      SoundRoom(s, q.lobbyId);
      UndecidedIsActive(r, s.block);
      RoomAnswersAreBlind(p, s, t, q, viewer);
    } else {
      SameRoomSameAnswer(p, s, t, q, viewer);
    }
  }

  lemma StatsAreBlind(p: Protocol, s: State, t: State)
    requires p.Valid() && CountActive(s) == CountActive(t) && CountIntercepted(s) == CountIntercepted(t)
    requires CountInFlight(s) == CountInFlight(t) && |s.rooms| == |t.rooms| && t == s.(rooms := t.rooms)
    ensures ComputeGameStats(p, s) == ComputeGameStats(p, t)
    ensures ComputeGlobalDefenseDraw(p, s) == ComputeGlobalDefenseDraw(p, t)
  {
    hide CountActive, CountIntercepted, CountInFlight, UpcomingDraw, ProtocolEpoch;
  }

  lemma SettlementIsBlind(r: Room, t: Room, viewer: Viewer)
    requires LowEqRooms(r, t, viewer)
    ensures CreatorSettlement(r) == CreatorSettlement(t)
  {
  }

  /**
   * Coordinate non-interference: in two reachable states that differ only in the sealed path of an undecided attack
   * and in Defense Points other wallets placed, every read answers the viewer identically - and leaves two states that
   * still differ in nothing else.
   */
  lemma ReadsRevealNoCoordinate(p: Protocol, s: State, t: State, q: Query, viewer: Viewer, nowMs: int)
    requires p.Valid() && Inv(s) && Inv(t) && LowEq(s, t, viewer)
    ensures ReadContract(p, s, q, viewer, nowMs) == ReadContract(p, t, q, viewer, nowMs)
    ensures LowEq(SettledFor(p, s, q, nowMs), SettledFor(p, t, q, nowMs), viewer)
  {
    hide Inv, LowEq, SettleLobby, SettleEverything, AnswerFrom, Continues, NothingOrphaned;
    if q.GetGameStats? || q.GetGlobalDefenseDraw? {
      SettleEverythingIsBlind(p, s, t, viewer, nowMs);
      SettleEverythingKeeps(p, s, nowMs);
    } else if !q.GetSealingKey? {
      SettleIsBlind(p, s, t, viewer, q.lobbyId, nowMs);
      SettleContinues(p, s, q.lobbyId, nowMs);
    }
    AnswersAreBlind(p, SettledFor(p, s, q, nowMs), SettledFor(p, t, q, nowMs), q, viewer);
  }

  // ------------------------------------------------- where such states come from

  /** A settled attack that has launched has not landed. */
  lemma SettledIsUndecided(p: Protocol, s: State, id: Hash, nowMs: int)
    requires p.Valid() && Inv(s) && id in s.rooms
    ensures var t := SettleLobby(p, s, id, nowMs);
            id in t.rooms && (t.rooms[id].attack.Some? && t.rooms[id].attack.value.status == AttackLaunched
                              ==> Undecided(t.rooms[id], t.block))
  {
    hide Inv, Solvent, DrawsOk, AtRest, AdvanceAttack, SettleLobby, RoomOk, ConcludedRoom, AdvancedForfeit, Forfeited;
    var t := SettleLobby(p, s, id, nowMs);
    SettledElsewhere(p, s, id, nowMs);
    SettleStages(p, s, id, nowMs);
    var started := StartedFrom(p, Closed(s, id, nowMs), id);
    SettledSound(p, s, id, nowMs);
    if started.rooms[id].status == Active {
      AdvanceIs(p, started, id);
      AdvanceKeepsClock(p, started, id);
      ConcludedIsResolved(p, LaunchedRoom(started.rooms[id], started.block), started.block);
    } else if t.rooms[id].attack.Some? && t.rooms[id].attack.value.status == AttackLaunched {
      LaunchedMeansActive(t.rooms[id], t.rooms[id].attack.value.epochId);
    }
  }

  lemma AdvanceKeepsClock(p: Protocol, s: State, id: Hash)
    requires p.Valid() && id in s.rooms
    ensures AdvanceAttack(p, s, id).block == s.block
  {
    hide ConcludedRoom, Forfeited;
  }

  lemma ConcludedIsResolved(p: Protocol, r: Room, block: int)
    requires Judgeable(r)
    ensures ConcludedRoom(p, r, block).attack == Some(r.attack.value.(status := AttackResolved))
  {
    hide VerdictOf, Forfeited;
  }

  lemma SettledSound(p: Protocol, s: State, id: Hash, nowMs: int)
    requires p.Valid() && Inv(s) && id in s.rooms
    ensures var t := SettleLobby(p, s, id, nowMs); id in t.rooms && RoomOk(t.rooms[id]) && t.block == s.block
  {
    hide Inv, SettleLobby, RoomOk, OnlyRoom;
    SettledElsewhere(p, s, id, nowMs);
    SettleKeeps(p, s, id, nowMs);
    SoundRoom(SettleLobby(p, s, id, nowMs), id);
  }

  /**
   * A Defense another wallet sends is invisible: whichever point was in the envelope, the states it leaves differ only
   * in what is sealed from this viewer - so, with the theorem above, no read tells one from the other.
   */
  lemma OthersDefenseIsInvisible(p: Protocol, s: State, from: Address, id: Hash, attackId: int,
                                 x: DefensePoint, y: DefensePoint, viewer: Viewer, nowMs: int, hash: Hash)
    requires p.Valid() && Inv(s) && viewer != Some(from)
    requires ApplyPrivateAction(p, s, from, id, SealedRequest(p.sealingKey, DefenseSubmit(attackId, x)), nowMs, hash).Confirmed?
    requires ApplyPrivateAction(p, s, from, id, SealedRequest(p.sealingKey, DefenseSubmit(attackId, y)), nowMs, hash).Confirmed?
    requires id in s.rooms && hash !in SettleLobby(p, s, id, nowMs).rooms[id].points
    ensures LowEq(ApplyPrivateAction(p, s, from, id, SealedRequest(p.sealingKey, DefenseSubmit(attackId, x)), nowMs, hash).state,
                  ApplyPrivateAction(p, s, from, id, SealedRequest(p.sealingKey, DefenseSubmit(attackId, y)), nowMs, hash).state, viewer)
  {
    hide Inv, SettleLobby, RoomOk;
    var u := SettleLobby(p, s, id, nowMs);
    SettledIsUndecided(p, s, id, nowMs);
    SettledSound(p, s, id, nowMs);
    var r := u.rooms[id];
    DefendedAlike(r, from, x, y, viewer, u.block, hash);
    SameRoomsAreHidden(u, viewer);
    assert u.rooms[id := Defended(r, from, x, u.block, hash)][id := Defended(r, from, y, u.block, hash)]
           == u.rooms[id := Defended(r, from, y, u.block, hash)];
    PutLow(u, u, Put(u, id, Defended(r, from, x, u.block, hash)), viewer, id,
           Defended(r, from, x, u.block, hash), Defended(r, from, y, u.block, hash));
  }

  lemma SameRoomsAreHidden(s: State, viewer: Viewer)
    ensures LowEq(s, s, viewer)
  {
  }

  lemma DefendedAlike(r: Room, from: Address, x: DefensePoint, y: DefensePoint, viewer: Viewer, block: int, hash: Hash)
    requires from in r.seats && viewer != Some(from) && hash !in r.points && RoomOk(r) && Undecided(r, block)
    ensures HiddenAlike(Defended(r, from, x, block, hash), Defended(r, from, y, block, hash), viewer, block)
  {
    hide BooksOk;
    UndecidedIsActive(r, block);
    assert forall a :: a in r.attempts ==> AttemptOk(r, a);
  }
}
