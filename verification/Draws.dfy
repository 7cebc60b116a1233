/** The jackpot that rolls between rounds: conserved, one draw per interval epoch, and opened exactly when due. */
module Draws {
  import opened Sums
  import opened Options
  import opened World
  import opened Interception
  import opened Epochs
  import opened GlobalDefense
  import opened EmulatorState
  import opened GameContract
  import opened Accounting
  import opened RoomMoves
  import opened RoomHistory
  import opened Jackpot
  import opened Solvency
  import opened Runs
  import opened Entitlements

  /** The block ticker's test and the write's guards agree, so mining never meets a refusal. */
  lemma DueIffOpens(p: Protocol, s: State, nowMs: int, hash: Hash)
    requires p.Valid()
    ensures IsGlobalDefenseDue(p, s) <==> OpenGlobalDefense(p, s, nowMs, hash).Confirmed?
    ensures IsGlobalDefenseDue(p, s) ==> OpenGlobalDefense(p, NextHash(s), nowMs, s.txCounter + 1).Confirmed?
  {
  }

  /** Anybody may send the opening write: it is taken exactly when a draw is due. */
  lemma AnybodyOpensIffDue(p: Protocol, s: State, from: Address, nowMs: int)
    requires p.Valid()
    ensures WriteContract(p, s, from, OpenDraw, nowMs).Confirmed? <==> IsGlobalDefenseDue(p, s)
  {
    hide OpenGlobalDefense, UpcomingDraw;
    DueIffOpens(p, NextHash(s), nowMs, s.txCounter + 1);
  }

  lemma OpeningLeavesNoneDue(p: Protocol, s: State, nowMs: int)
    requires p.Valid()
    ensures !IsGlobalDefenseDue(p, MaybeOpenGlobalDefense(p, s, nowMs))
  {
    hide UpcomingDraw, DrawRoom;
  }

  /**
   * A block, or a read of the statistics or of the draw, leaves no draw due: in an open join window with money in the pool
   * the interval's draw exists, and nobody's own opening write would be taken.
   */
  lemma NoDrawIsLeftDue(p: Protocol, s: State, from: Address, nowMs: int)
    requires p.Valid() && Inv(s)
    ensures !IsGlobalDefenseDue(p, MineBlock(p, s, nowMs)) && !IsGlobalDefenseDue(p, SettleEverything(p, s, nowMs))
    ensures var t := MineBlock(p, s, nowMs);
            WriteContract(p, t, from, OpenDraw, nowMs).Failed?
            && (p.limits.globalDefenseEpochInterval > 0 && t.pool > 0 && InJoinWindow(UpcomingDraw(p, t.block), t.block) ==>
                  UpcomingDraw(p, t.block).nextEpoch in t.draws)
  {
    hide Inv, MaybeOpenGlobalDefense, SettleRooms, SettleProtocolDraws, MaybeTopUpGlobalDefense, UpcomingDraw, WriteContract;
    OpeningLeavesNoneDue(p, MaybeTopUpGlobalDefense(p, s.(block := s.block + 1)), nowMs);
    var u := SettleProtocolDraws(SettleRooms(p, s, s.txCounter, nowMs), s.txCounter);
    OpeningLeavesNoneDue(p, MaybeTopUpGlobalDefense(p, u), nowMs);
    AnybodyOpensIffDue(p, MineBlock(p, s, nowMs), from, nowMs);
  }

  // -------------------------------------------------------------- conservation

  ghost function FirstForfeits(rooms: map<Hash, Room>): map<Hash, int> {
    map id | id in rooms :: FirstForfeited(rooms[id])
  }

  ghost function DustsBack(rooms: map<Hash, Room>): map<Hash, int> {
    map id | id in rooms :: DustBack(rooms[id])
  }

  ghost function Stakes(rooms: map<Hash, Room>): map<Hash, int> {
    map id | id in rooms :: Stake(rooms[id])
  }

  ghost function WonAways(rooms: map<Hash, Room>): map<Hash, int> {
    map id | id in rooms :: WonAway(rooms[id])
  }

  lemma TermsSplit(rooms: map<Hash, Room>)
    ensures Sum(PoolTerms(rooms)) + Sum(Stakes(rooms)) + Sum(WonAways(rooms)) == Sum(FirstForfeits(rooms)) + Sum(DustsBack(rooms))
  {
    hide Sum, FirstForfeited, DustBack, Stake, WonAway;
    var brought := map id | id in rooms :: FirstForfeited(rooms[id]) + DustBack(rooms[id]);
    var taken := map id | id in rooms :: Stake(rooms[id]) + WonAway(rooms[id]);
    SumAdd(FirstForfeits(rooms), DustsBack(rooms), brought);
    SumAdd(Stakes(rooms), WonAways(rooms), taken);
    SumAdd(PoolTerms(rooms), taken, brought);
  }

  /**
   * None of the four is negative; a stake is money the room's ledger still owes somebody, and the dust a draw gives back is
   * less than a wei per winner.
   */
  lemma JackpotShares(r: Room)
    requires RoomOk(r)
    ensures 0 <= Stake(r) <= Liability(r) && 0 <= WonAway(r) && 0 <= FirstForfeited(r)
    ensures 0 <= DustBack(r) && (DustBack(r) > 0 ==> Won(r) && DustBack(r) < |r.outcome.value.Winners()|)
  {
    hide Sum, AttemptsOk;
    FeesNonNegative(r);
    BackingCovers(r);
    if r.ProtocolOwned() { DrawFeeIsZero(r); }
    if Won(r) {
      WonShares(r);
    } else if r.ending != NotEnded {
      SeatDuesNonNegative(r);
    }
  }

  /**
   * After any run the pool, the stakes of draws still running or called off and unsettled, and what draws' winners won are
   * exactly what players' money ever forfeited for the first time and the dust that settled draws gave back: no wei is in
   * two places and none is lost. A stake is backed by its own room, and no draw holds one before it starts.
   */
  lemma JackpotIsConserved(p: Protocol, initialBlock: int, steps: seq<Step>)
    requires p.Valid() && forall step :: step in steps ==> IsPlayerStep(step)
    ensures var t := Run(p, CreateEmulatorState(initialBlock), steps);
            && t.pool + Sum(Stakes(t.rooms)) + Sum(WonAways(t.rooms)) == Sum(FirstForfeits(t.rooms)) + Sum(DustsBack(t.rooms))
            && t.pool >= 0
            && forall id :: id in t.rooms ==>
                 var r := t.rooms[id];
                 && 0 <= Stake(r) <= Liability(r) && 0 <= WonAway(r) && 0 <= FirstForfeited(r)
                 && 0 <= DustBack(r) && (DustBack(r) > 0 ==> Won(r) && DustBack(r) < |r.outcome.value.Winners()|)
                 && (r.attack.None? ==> Stake(r) == 0)
  {
    hide Sum, RoomOk, Run, IsPlayerStep, FirstForfeited, DustBack, WonAway, Liability;
    GenesisIsSound(initialBlock);
    RunKeeps(p, CreateEmulatorState(initialBlock), steps);
    var t := Run(p, CreateEmulatorState(initialBlock), steps);
    TermsSplit(t.rooms);
    forall id | id in t.rooms
      ensures RoomOk(t.rooms[id])
    {
    }
    forall id | id in t.rooms
      ensures 0 <= Stake(t.rooms[id]) <= Liability(t.rooms[id]) && 0 <= WonAway(t.rooms[id]) && 0 <= FirstForfeited(t.rooms[id])
      ensures 0 <= DustBack(t.rooms[id])
      ensures DustBack(t.rooms[id]) > 0 ==> Won(t.rooms[id]) && DustBack(t.rooms[id]) < |t.rooms[id].outcome.value.Winners()|
    {
      JackpotShares(t.rooms[id]);
    }
  }

  // ----------------------------------------------------------- where it may go

  /** A draw that has not started holds nothing: opening it takes nothing, and neither does calling it off unfilled. */
  lemma UnstartedHoldsNothing(s: State, id: Hash)
    requires Inv(s) && id in s.rooms && s.rooms[id].ProtocolOwned() && s.rooms[id].attack.None?
    ensures s.rooms[id].ledger.startPrizePool == 0 && Stake(s.rooms[id]) == 0
  {
    hide Solvent, JackpotOk;
  }

  /** A room's contribution to the pool only falls when it is a draw that starts, and then by no more than what it took. */
  lemma TermFallsOnlyAtStart(r: Room, t: Room)
    requires RoomOk(r) && RoomOk(t) && Evolves(r, t)
    requires r.ProtocolOwned() && r.attack.None? ==> r.ledger.startPrizePool == 0
    ensures t.creator == r.creator
    ensures PoolTerm(t) >= PoolTerm(r) - if Started(r, t) then t.ledger.startPrizePool else 0
  {
    hide Sum, BooksOk, AttemptsOk, CompletedCreatorDue, Liability;
    JackpotShares(r);
    JackpotShares(t);
    BountyIsNotNegative(t);
    if r.ending != NotEnded { SharesStay(r, t); }
  }

  lemma SharesStay(r: Room, t: Room)
    requires RoomOk(r) && RoomOk(t) && Evolves(r, t) && r.ending != NotEnded
    ensures CompletedCreatorDue(t) == CompletedCreatorDue(r) || r.ending != Completed
    ensures FirstForfeited(t) == FirstForfeited(r) && WonAway(t) == WonAway(r)
  {
    hide Sum, BooksOk, AttemptsOk;
  }

  lemma FreshTerm(t: Room)
    requires RoomOk(t) && (t.ProtocolOwned() && t.attack.None? ==> t.ledger.startPrizePool == 0)
    ensures PoolTerm(t) >= -(if t.ProtocolOwned() && t.attack.Some? then t.ledger.startPrizePool else 0)
  {
    hide Sum, BooksOk, AttemptsOk, Liability, CompletedCreatorDue;
    JackpotShares(t);
    BountyIsNotNegative(t);
  }

  /** A draw that started during this run, or was opened and started in it: the only rooms that take from the pool. */
  predicate Fed(s: State, t: State, id: Hash)
    requires id in t.rooms
  {
    if id in s.rooms then Started(s.rooms[id], t.rooms[id]) else t.rooms[id].ProtocolOwned() && t.rooms[id].attack.Some?
  }

  /** What each fed draw took. */
  ghost function Takings(s: State, t: State): map<Hash, int> {
    map id | id in t.rooms :: if Fed(s, t, id) then t.rooms[id].ledger.startPrizePool else 0
  }

  /**
   * Over any run from a reachable state the pool falls by no more than what the draws that started in that run took, none
   * of which is negative; where no draw started it does not fall at all.
   */
  lemma PoolFallsOnlyToADraw(p: Protocol, s: State, steps: seq<Step>)
    requires p.Valid() && Inv(s) && forall step :: step in steps ==> IsPlayerStep(step)
    ensures var t := Run(p, s, steps);
            && s.pool - t.pool <= Sum(Takings(s, t))
            && (forall id :: id in t.rooms ==> Takings(s, t)[id] >= 0)
            && (t.pool < s.pool ==> exists id :: id in t.rooms && Fed(s, t, id))
  {
    hide Sum, RoomOk, Run, IsPlayerStep, PoolTerm, Orphaned, Evolves, Fed, Started, Solvent;
    RunKeeps(p, s, steps);
    var t := Run(p, s, steps);
    forall id | id in t.rooms
      ensures PoolTerm(t.rooms[id]) + Takings(s, t)[id] >= if id in s.rooms then PoolTerm(s.rooms[id]) else 0
      ensures Takings(s, t)[id] >= 0
    {
      SolventRoom(t, id);
      BountyIsNotNegative(t.rooms[id]);
      if id in s.rooms {
        SolventRoom(s, id);
        TermFallsOnlyAtStart(s.rooms[id], t.rooms[id]);
        StartedIsFed(s, t, id);
      } else {
        FreshTerm(t.rooms[id]);
        NewIsFed(s, t, id);
      }
    }
    TermsGrow(s.rooms, t.rooms, Takings(s, t));
    if forall id :: id in t.rooms ==> !Fed(s, t, id) {
      SumZero(Takings(s, t));
    }
  }

  lemma BountyIsNotNegative(r: Room)
    requires RoomOk(r)
    ensures r.ledger.startPrizePool >= 0
  {
    hide Sum, StageOk, Orphaned;
  }

  lemma StartedIsFed(s: State, t: State, id: Hash)
    requires id in s.rooms && id in t.rooms
    ensures Fed(s, t, id) <==> Started(s.rooms[id], t.rooms[id])
  {
  }

  lemma NewIsFed(s: State, t: State, id: Hash)
    requires id !in s.rooms && id in t.rooms
    ensures Fed(s, t, id) <==> t.rooms[id].ProtocolOwned() && t.rooms[id].attack.Some?
  {
  }

  lemma TermsGrow(rooms: map<Hash, Room>, later: map<Hash, Room>, takings: map<Hash, int>)
    requires rooms.Keys <= later.Keys && takings.Keys == later.Keys
    requires forall id :: id in later ==> PoolTerm(later[id]) + takings[id] >= if id in rooms then PoolTerm(rooms[id]) else 0
    ensures Sum(PoolTerms(later)) + Sum(takings) >= Sum(PoolTerms(rooms))
  {
    hide Sum, PoolTerm;
    var before := map id | id in later :: if id in rooms then PoolTerm(rooms[id]) else 0;
    var after := map id | id in later :: PoolTerm(later[id]) + takings[id];
    SumAdd(PoolTerms(later), takings, after);
    SumLeq(before, after);
    SumIgnoresZeros(PoolTerms(rooms), before);
  }

  // ------------------------------------------------------- one draw per epoch

  predicate OnInterval(p: Protocol, s: State) {
    p.limits.globalDefenseEpochInterval > 0 ==> forall e :: e in s.draws ==> e % p.limits.globalDefenseEpochInterval == 0
  }

  lemma OpeningStaysOnInterval(p: Protocol, s: State, nowMs: int, hash: Hash)
    requires p.Valid() && OnInterval(p, s)
    ensures OnInterval(p, OpenGlobalDefense(p, s, nowMs, hash).state)
  {
    if p.limits.globalDefenseEpochInterval > 0 {
      NextDrawIsNext(ProtocolEpoch(p, s.block), p.limits.globalDefenseEpochInterval);
    }
  }

  lemma NextStaysOnInterval(p: Protocol, s: State, step: Step)
    requires p.Valid() && Inv(s) && IsPlayerStep(step) && OnInterval(p, s)
    ensures OnInterval(p, Next(p, s, step))
  {
    hide Inv, Continues, NothingOrphaned, OpenGlobalDefense, SettleLobby, SettleRooms, SettleProtocolDraws,
         MaybeTopUpGlobalDefense, OrphanedBy;
    match step {
      case Mine(nowMs) =>
        var t := s.(block := s.block + 1);
        ClockKeeps(s);
        TopUpIdles(p, t);
        OpeningStaysOnInterval(p, NextHash(t), nowMs, t.txCounter + 1);
      case ReadLobby(id, nowMs) => SettleContinues(p, s, id, nowMs);
      case ReadEverything(nowMs) =>
        var t := SettleRooms(p, s, s.txCounter, nowMs);
        var u := SettleProtocolDraws(t, s.txCounter);
        SettleRoomsKeep(p, s, s.txCounter, nowMs);
        SettleDrawsKeep(t, s.txCounter);
        TopUpIdles(p, u);
        OpeningStaysOnInterval(p, NextHash(u), nowMs, u.txCounter + 1);
      case Inspect(nowMs) => SettleRoomsKeep(p, s, s.txCounter, nowMs);
      case Write(from, call, nowMs) =>
        if call.OpenDraw? {
          OpeningStaysOnInterval(p, NextHash(s), nowMs, s.txCounter + 1);
        } else {
          OtherWritesKeepDraws(p, s, from, call, nowMs);
        }
    }
  }

  lemma OtherWritesKeepDraws(p: Protocol, s: State, from: Address, call: Call, nowMs: int)
    requires p.Valid() && Inv(s) && from != PROTOCOL_ESCROW_ADDRESS && !call.OpenDraw?
    ensures WriteContract(p, s, from, call, nowMs).state.draws == s.draws
  {
    hide Inv, Continues, NothingOrphaned, OrphanedBy, WriteContract;
    WriteKeeps(p, s, from, call, nowMs);
  }

  lemma {:induction false} RunStaysOnInterval(p: Protocol, initialBlock: int, steps: seq<Step>)
    requires p.Valid() && forall step :: step in steps ==> IsPlayerStep(step)
    ensures OnInterval(p, Run(p, CreateEmulatorState(initialBlock), steps))
    decreases |steps|
  {
    hide Inv, Next, OnInterval, Continues, Orphaned, IsPlayerStep;
    var s := CreateEmulatorState(initialBlock);
    if steps == [] {
      assert OnInterval(p, s) by { NoDrawsOnInterval(p, s); }
    } else {
      var before := steps[..|steps| - 1];
      RunStaysOnInterval(p, initialBlock, before);
      GenesisIsSound(initialBlock);
      RunKeeps(p, s, before);
      NextStaysOnInterval(p, Run(p, s, before), steps[|steps| - 1]);
    }
  }

  lemma NoDrawsOnInterval(p: Protocol, s: State)
    requires s.draws == map[]
    ensures OnInterval(p, s)
  {
  }

  predicate IsDraw(s: State, id: Hash) { id in s.rooms && s.rooms[id].ProtocolOwned() }

  /** In every reachable state each draw is bound to an interval epoch, and no two draws to the same one. */
  lemma OneDrawPerEpoch(p: Protocol, initialBlock: int, steps: seq<Step>)
    requires p.Valid() && forall step :: step in steps ==> IsPlayerStep(step)
    ensures var t := Run(p, CreateEmulatorState(initialBlock), steps);
            && (forall a, b :: IsDraw(t, a) && IsDraw(t, b) && t.rooms[a].currentEpochId == t.rooms[b].currentEpochId ==> a == b)
            && (p.limits.globalDefenseEpochInterval > 0 ==>
                  forall a :: IsDraw(t, a) ==>
                    t.rooms[a].currentEpochId.Some? && t.rooms[a].currentEpochId.value % p.limits.globalDefenseEpochInterval == 0)
            && AtRest(t)
  {
    hide Run, IsPlayerStep, Solvent, JackpotOk, Continues, Orphaned;
    GenesisIsSound(initialBlock);
    RunKeeps(p, CreateEmulatorState(initialBlock), steps);
    RunStaysOnInterval(p, initialBlock, steps);
  }
}
